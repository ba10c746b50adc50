/** Runs that show what the daemon does not guarantee.  Each is a complete run from the empty daemon; the
    lemma beside it in module Exclusion, QueueRuns, History or Delivery says exactly when the thing cannot
    happen. */
module Counterexamples {
  import opened Common
  import opened Jobs
  import opened PriorityQueue
  import opened Prune
  import opened Machine
  import opened QueueRuns
  import opened Exclusion
  import opened Events
  import opened Logs
  import opened Delivery
  import opened Invariants
  import opened Estimates
  import opened Streams

  function SomeWork(): Work { Work(["train"], "/", map[], "", None) }

  /** A job is popped and its eviction under way. */
  lemma JobEvicting() returns (ss: seq<State>, es: seq<Step>)
    ensures Run(ss, es) && |es| == 2 && ss[2].pc == Evicting(1) && !ss[2].leaseHeld && ss[2].clock == 2
    ensures ss[2].current == None && ss[2].leasing == map[] && ss[2].leases == map[] && ss[2].cancels == map[]
    ensures ss[2].rows.Keys == {1} && ss[2].rows[1].state == Starting && ss[2].used == {1}
    ensures ss[2].feeds == map[] && ss[2].disk == map[] && ss[2].notify && ss[2].rows[1].work.tag == ""
  {
    ss, es := [Init()], [];
    ss, es := Extend(ss, es, Submit(1, SomeWork(), 0, false, None, 1));
    assert QueuedIds(ss[|es|].rows) == {1};
    ss, es := Extend(ss, es, Wake(2));
  }

  /** A lease request that arrives during a job's eviction is granted, and then the job starts: both have
      the GPU. */
  lemma LeaseAndJobTogether() returns (ss: seq<State>, es: seq<Step>)
    ensures Run(ss, es) && var s := ss[|es|];
            s.leaseHeld && s.current == Some(1) && 1 in s.rows && s.rows[1].state == Running && !Exclusive(s)
  {
    ss, es := JobEvicting();
    ss, es := Extend(ss, es, LeaseAsk(0));
    ss, es := Extend(ss, es, LeaseGrant(0, 5, 3));
    ss, es := Extend(ss, es, EvictReturned([], true, 4));
  }

  /** Two lease requests pass the check together; the second grant overwrites the first, whose holder can
      then not release it. */
  lemma TwoLeases() returns (ss: seq<State>, es: seq<Step>)
    ensures Run(ss, es) && var s := ss[|es|];
            s.leaseId == Some(6) && Stranded(s, 5) && s.leaseHeld
  {
    ss, es := [Init()], [];
    ss, es := Extend(ss, es, LeaseAsk(0));
    ss, es := Extend(ss, es, LeaseAsk(1));
    ss, es := Extend(ss, es, LeaseGrant(0, 5, 1));
    ss, es := Extend(ss, es, LeaseGrant(1, 6, 2));
  }

  /** A crash with a job queued: after the restart nobody wakes the scheduler for it. */
  lemma ForgottenJob() returns (ss: seq<State>, es: seq<Step>)
    ensures Run(ss, es) && var s := ss[|es|]; 1 in QueuedIds(s.rows) && s.pc.Idle? && !s.notify && !Notified(s)
  {
    ss, es := [Init()], [];
    ss, es := Extend(ss, es, Submit(1, SomeWork(), 0, false, None, 1));
    ss, es := Extend(ss, es, CrashRestart(2));
  }

  /** Job 1 is running. */
  lemma JobRunning() returns (ss: seq<State>, es: seq<Step>)
    ensures Run(ss, es) && var s := ss[|es|];
      && s.rows.Keys == {1} && s.rows[1].state == Running && s.rows[1].work.tag == "" && s.used == {1}
      && s.pc == Executing(1, Spawned) && s.waiter == Some([]) && s.current == Some(1)
      && s.runner == Some(Runner(1)) && !s.leaseHeld && s.notify && s.cancels == map[] && s.clock == 3
      && s.disk == map[1 := EMPTY_DIR]
  {
    ss, es := JobEvicting();
    ss, es := Extend(ss, es, EvictReturned([], true, 3));
    ss, es := Extend(ss, es, MirrorStarted);
    ss, es := Extend(ss, es, ChildSpawned);
  }

  /** The process of the running job exits with 0. */
  lemma JobEnded(ss: seq<State>, es: seq<Step>, id: JobId) returns (ss': seq<State>, es': seq<Step>)
    requires Run(ss, es) && var s := ss[|es|];
      s.pc == Executing(id, Spawned) && s.waiter == Some([]) && !s.leaseHeld && id in s.rows
    ensures Run(ss', es') && var s, t := ss[|es|], ss'[|es'|];
      && t.pc.Idle? && t.current == None && !t.leaseHeld && t.notify == s.notify
      && t.cancels == s.cancels && t.clock == s.clock + 1 && t.used == s.used
      && t.rows == s.rows[id := s.rows[id].(state := JobState.Done, exitCode := Some(0),
                                            finished := Some(s.clock + 1))]
  {
    ss', es' := Extend(ss, es, RunEnded(Exited(0)));
    ss', es' := Extend(ss', es', MirrorTook);
    ss', es' := Extend(ss', es', Finished(ss[|es|].clock + 1));
  }

  /** It finishes while a cancel handler waits for it. */
  lemma CancelledAndFinished() returns (ss: seq<State>, es: seq<Step>)
    ensures Run(ss, es) && var s := ss[|es|];
      && s.rows.Keys == {1} && s.rows[1].state == Done && s.rows[1].finished == Some(4)
      && s.rows[1].work.tag == "" && s.pc.Idle? && s.notify && s.current == None && !s.leaseHeld
      && s.cancels == map[0 := CancelWait(1, false)] && s.clock == 4 && s.used == {1}
  {
    ss, es := JobRunning();
    ss, es := Extend(ss, es, Cancel(0, 1, Term, 4));
    ss, es := JobEnded(ss, es, 1);
  }

  /** The finished job is pruned before the handler looks again, and another job starts; when the deadline
      passes, the handler sends KILL to that other job, whose process is there to get it. */
  lemma WrongJobKilled() returns (ss: seq<State>, es: seq<Step>)
    ensures Run(ss, es) && var s := ss[|es|];
      && 0 in s.cancels && s.cancels[0].job == 1
      && s.current == Some(2) && s.rows.Keys == {2} && s.rows[2].state == Running
      && s.pc == Executing(2, Spawned)
      && PollOutcome(s, s.cancels[0], true) == Signalled(2, Kill)
  {
    ss, es := CancelledAndFinished();
    VictimsExactly(ss[|es|].rows, [], "", 6, 1);
    assert Victims(ss[|es|].rows, [], "", 6) == {1};
    ss, es := Extend(ss, es, Step.Prune([], "", 6, false));
    assert ss[|es|].rows == map[];
    ss, es := Extend(ss, es, Submit(2, SomeWork(), 0, false, None, 7));
    assert QueuedIds(ss[|es|].rows) == {2};
    ss, es := Extend(ss, es, Wake(8));
    ss, es := Extend(ss, es, EvictReturned([], true, 9));
    ss, es := Extend(ss, es, MirrorStarted);
    ss, es := Extend(ss, es, ChildSpawned);
  }

  /** Eviction raises for job 1: its row is failed, and whoever streams it waits for good. */
  lemma FailedUnannounced() returns (ss: seq<State>, es: seq<Step>)
    ensures Run(ss, es) && var s := ss[|es|];
      1 in s.rows && s.rows[1].state == Failed && s.pc.Idle? && !StreamEnds(FeedIn(s, 1))
  {
    ss, es := JobEvicting();
    ss, es := Extend(ss, es, EvictRaised(3));
  }

  /** A prune of queued jobs deletes job 1, whose submitter waits for good. */
  lemma PrunedUnannounced() returns (ss: seq<State>, es: seq<Step>)
    ensures Run(ss, es) && var s := ss[|es|];
      s.rows == map[] && s.pc.Idle? && 1 in s.used && !StreamEnds(FeedIn(s, 1))
  {
    ss, es := [Init()], [];
    ss, es := Extend(ss, es, Submit(1, SomeWork(), 0, false, None, 1));
    var t := ss[|es|].rows;
    UnfilteredIsEmpty([Known(JobState.Queued)]);
    assert Victims(t, [Known(JobState.Queued)], "", 5) == {1};
    ss, es := Extend(ss, es, Step.Prune([Known(JobState.Queued)], "", 5, false));
  }

  /** One pump of job 1 fails, which ends its run, and the other writes a line after that. */
  lemma PumpFailed(l: Line) returns (ss: seq<State>, es: seq<Step>)
    ensures Run(ss, es) && var s := ss[|es|];
      && s.pc == Executing(1, Draining(-1, false, true)) && s.waiter.None? && s.clock == 3
      && 1 in s.disk && s.disk[1].index == [l] && l in LostOf(s, 1)
  {
    ss, es := JobRunning();
    ss, es := Extend(ss, es, RunEnded(Raised(true)));
    ss, es := Extend(ss, es, MirrorTook);
    ss, es := Extend(ss, es, Appended(l));
  }

  /** Then the line is in the index, and no client that streams the job is sent it. */
  lemma LateLine(l: Line) returns (ss: seq<State>, es: seq<Step>)
    ensures Run(ss, es) && var s := ss[|es|];
      && PhaseOf(FeedIn(s, 1)) == Shut && 1 in s.disk
      && s.disk[1].index == [l] && LogsOf(Streamed(FeedIn(s, 1))) == []
  {
    var ss1, es1 := PumpFailed(l);
    ss, es := Extend(ss1, es1, Finished(4));
    assert ss[|es1|] == ss1[|es1|] && es[|es1|] == Finished(4);
    FinishCloses(ss, es, |es1|, 1, -1, false, true);
    StreamedWithout(ss, es, l);
  }

  lemma StreamedWithout(ss: seq<State>, es: seq<Step>, l: Line)
    requires Run(ss, es) && PhaseOf(FeedIn(ss[|es|], 1)) == Shut && 1 in ss[|es|].disk
    requires ss[|es|].disk[1].index == [l] && l in LostOf(ss[|es|], 1) && ss[|es|].pc.Idle?
    ensures LogsOf(Streamed(FeedIn(ss[|es|], 1))) == []
  {
    RunFlows(ss, es, |es|);
    assert Flowing(ss[|es|], 1);
    ClosedStreamed(FeedIn(ss[|es|], 1));
    NothingLeft(LogsOf(FeedIn(ss[|es|], 1)), LostOf(ss[|es|], 1), l);
  }

  lemma NothingLeft(logs: seq<Line>, lost: seq<Line>, l: Line)
    requires logs + [] + lost == [l] && l in lost
    ensures logs == []
  {
    assert |logs| + |lost| == 1;
  }

  // ---- a wrong estimate ----------------------------------------------------------------------------

  /** Idle, with no lease and an empty queue, and ready for a job with this id. */
  ghost predicate Vacant(s: State, id: JobId)
  {
    s.pc.Idle? && !s.leaseHeld && QueuedIds(s.rows) == {} && id !in s.used && id !in s.rows
  }

  function TakenRow(now: Stamp): Row
  {
    Row(SomeWork(), 0, JobState.Starting, None, None, now, Some(now + 1), None, None)
  }

  /** Job `id` is submitted and popped. */
  lemma JobTaken(ss: seq<State>, es: seq<Step>, id: JobId) returns (ss': seq<State>, es': seq<Step>)
    requires Run(ss, es) && Vacant(ss[|es|], id)
    ensures Run(ss', es') && var s, t := ss[|es|], ss'[|es'|];
      && t.pc == Evicting(id) && !t.leaseHeld && t.clock == s.clock + 2 && t.used == s.used + {id}
      && t.rows == s.rows[id := TakenRow(s.clock + 1)]
  {
    var now := ss[|es|].clock;
    ss', es' := Extend(ss, es, Submit(id, SomeWork(), 0, false, None, now + 1));
    assert QueuedIds(ss'[|es'|].rows) == {id};
    ss', es' := Extend(ss', es', Wake(now + 2));
  }

  /** Its process is started. */
  lemma JobStarted(ss: seq<State>, es: seq<Step>, id: JobId) returns (ss': seq<State>, es': seq<Step>)
    requires Run(ss, es) && var s := ss[|es|]; s.pc == Evicting(id) && !s.leaseHeld && id in s.rows
    ensures Run(ss', es') && var s, t := ss[|es|], ss'[|es'|];
      && t.pc == Executing(id, Spawned) && t.waiter == Some([]) && !t.leaseHeld
      && t.clock == s.clock + 1 && t.used == s.used
      && t.rows == s.rows[id := s.rows[id].(state := JobState.Running, started := Some(s.clock + 1))]
  {
    ss', es' := Extend(ss, es, EvictReturned([], true, ss[|es|].clock + 1));
    ss', es' := Extend(ss', es', MirrorStarted);
    ss', es' := Extend(ss', es', ChildSpawned);
  }

  /** A whole job, from one free state to the next. */
  lemma JobDone(ss: seq<State>, es: seq<Step>, id: JobId) returns (ss': seq<State>, es': seq<Step>)
    requires Run(ss, es) && Vacant(ss[|es|], id)
    ensures Run(ss', es') && var s, t := ss[|es|], ss'[|es'|];
      && t.pc.Idle? && !t.leaseHeld && QueuedIds(t.rows) == {} && t.used == s.used + {id}
      && t.rows.Keys == s.rows.Keys + {id} && Sampled(t.rows, "", id)
      && forall k :: k in s.rows && k != id ==> t.rows[k] == s.rows[k]
  {
    ss', es' := JobTaken(ss, es, id);
    ss', es' := JobStarted(ss', es', id);
    ss', es' := JobEnded(ss', es', id);
  }

  lemma ThreeDone() returns (ss: seq<State>, es: seq<Step>)
    ensures Run(ss, es) && var s := ss[|es|];
      Vacant(s, 4) && 5 !in s.used && s.rows.Keys == {1, 2, 3} && forall k :: k in s.rows ==> Sampled(s.rows, "", k)
  {
    ss, es := [Init()], [];
    ss, es := JobDone(ss, es, 1);
    assert Vacant(ss[|es|], 2) && ss[|es|].rows.Keys == {1};
    ss, es := JobDone(ss, es, 2);
    assert Vacant(ss[|es|], 3) && ss[|es|].rows.Keys == {1, 2};
    ss, es := JobDone(ss, es, 3);
  }

  /** Three jobs are done, the fourth is being evicted for, and the fifth is queued. */
  lemma SecondInLine() returns (ss: seq<State>, es: seq<Step>)
    ensures Run(ss, es) && var s := ss[|es|];
      s.pc == Evicting(4) && QueuedIds(s.rows) == {5} && Samples(s.rows, "") == {1, 2, 3}
  {
    ss, es := ThreeDone();
    ss, es := JobTaken(ss, es, 4);
    var s := ss[|es|];
    assert s.rows.Keys == {1, 2, 3, 4} && !s.rows[4].state.Queued?;
    ss, es := Extend(ss, es, Submit(5, SomeWork(), 0, false, None, s.clock + 1));
    assert ss[|es|].rows.Keys == {1, 2, 3, 4, 5};
  }

  /** Job 5 is told that it starts at once, though the job being evicted for has its whole time before it. */
  ghost predicate Misled(s: State, mean: real)
  {
    && MeanFor(s.rows, "") == Some(mean) && mean > 0.0
    && PositionOf(s.rows, 5) == Some(1)
    && EtaOf(s.rows, s.current, "", Some(1), s.clock) == Some(Eta(0.0, 0.0))
    && FreeAt(s, (k: JobId) => mean, s.clock, 0.0, s.clock) == mean
  }

  lemma MeanOfThree(s: State)
    requires Sound(s) && Samples(s.rows, "") == {1, 2, 3}
    ensures MeanFor(s.rows, "").Some? && MeanFor(s.rows, "").value > 0.0
  {
    OrderHasAll(ByFinish(s.rows), Samples(s.rows, ""));
    MeanIsPositive(s, "");
  }

  lemma FirstOfOne(s: State)
    requires QueuedIds(s.rows) == {5}
    ensures PositionOf(s.rows, 5) == Some(1)
  {
    assert Ahead(s.rows, QueuedIds(s.rows), 5) == {};
  }

  lemma NothingRemains(s: State, mean: real)
    requires Control(s) && s.pc.Evicting? && MeanFor(s.rows, "") == Some(mean) && mean > 0.0
    ensures EtaOf(s.rows, s.current, "", Some(1), s.clock) == Some(Eta(0.0, 0.0))
    ensures FreeAt(s, (k: JobId) => mean, s.clock, 0.0, s.clock) == mean
  {
    assert Remaining(s.rows, s.current, mean, s.clock) == 0.0;
    assert Behind(0.0, Some(1), mean) == Eta(0.0, 0.0);
  }

  lemma WrongEstimate() returns (ss: seq<State>, es: seq<Step>, mean: real)
    ensures Run(ss, es) && Misled(ss[|es|], mean)
  {
    ss, es := SecondInLine();
    var s := ss[|es|];
    RunSound(ss, es, |es|);
    MeanOfThree(s);
    mean := MeanFor(s.rows, "").value;
    FirstOfOne(s);
    NothingRemains(s, mean);
  }
}
