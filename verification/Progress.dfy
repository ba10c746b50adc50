/** Nothing the daemon does by itself gets stuck. */
module Progress {
  import opened Common
  import opened Jobs
  import opened PriorityQueue
  import opened Machine
  import opened Invariants
  import opened QueueRuns
  import Streams
  import Exclusion

  /** A step of the scheduler and its tasks: no client asks for it, and it is no crash. */
  predicate Own(e: Step) { !ByHandler(e) && !e.CrashRestart? }

  /** The step that brings the scheduler's job closer to its end. */
  function Onward(s: State): Step
    requires Busy(s)
  {
    match s.pc
    case Evicting(_) => EvictReturned([], true, s.clock + 1)
    case Executing(_, stage) =>
      match stage
      case Created => MirrorStarted
      case Listening => ChildSpawned
      case Spawned => RunEnded(Exited(0))
      case Draining(_, _, _) => if s.waiter.Some? then MirrorTook else Finished(s.clock + 1)
  }

  /** How many steps of this kind are left. */
  function Left(s: State): nat
  {
    var waiting := if s.waiter.Some? then |s.waiter.value| else 0;
    match s.pc
    case Idle => 0
    case AwaitRelease => 1
    case Evicting(_) => 7
    case Executing(_, stage) =>
      match stage
      case Created => 6
      case Listening => 5
      case Spawned => 4 + waiting
      case Draining(_, _, _) => if s.waiter.Some? then 2 + waiting else 1
  }

  lemma OnwardIsEnabled(s: State)
    requires Busy(s) && Streams.Mirroring(s)
    ensures Enabled(s, Onward(s)) && Own(Onward(s))
  {
    if s.pc.Executing? && s.pc.stage.Draining? && s.waiter.Some? {
      var j: nat :| Streams.EofAt(s.waiter.value, j);
    }
  }

  /** While a job is being evicted for or executed, there is always a step of the daemon's own that brings
      it closer to its end: in particular the mirror never waits for an end marker that does not come. */
  lemma NeverStuck(ss: seq<State>, es: seq<Step>, n: nat)
    requires Run(ss, es) && n <= |es| && Busy(ss[n])
    ensures Enabled(ss[n], Onward(ss[n])) && Own(Onward(ss[n]))
    ensures Left(Next(ss[n], Onward(ss[n]))) < Left(ss[n])
  {
    Streams.RunFlows(ss, es, n);
    OnwardIsEnabled(ss[n]);
    JobStepWorks(ss[n], Onward(ss[n]));
  }

  /** An idle scheduler that has been told, with no lease held and somebody queued, can pop, and what it
      pops is the head of the queue. */
  lemma HeadCanBePopped(s: State, now: Stamp)
    requires s.pc.Idle? && s.notify && !s.leaseHeld && Pending(s.rows) != [] && now > s.clock
    ensures Enabled(s, Wake(now)) && Pops(s, Wake(now), Pending(s.rows)[0])
  {
    HeadIsLeast(s.rows, QueuedIds(s.rows), Pending(s.rows));
  }

  /** What the daemon does next when left alone. */
  function Choice(s: State): Step
    requires !s.pc.Idle? || Pending(s.rows) != []
  {
    if Busy(s) then Onward(s) else if s.pc.AwaitRelease? then PollRelease else Wake(s.clock + 1)
  }

  /** Told of everyone queued, and not held up by a lease. */
  predicate Ready(s: State) { !s.leaseHeld && Notified(s) }

  lemma ChoiceGoesOn(ss: seq<State>, es: seq<Step>)
    requires Run(ss, es) && Ready(ss[|es|]) && (!ss[|es|].pc.Idle? || Pending(ss[|es|].rows) != [])
    ensures var s := ss[|es|]; var e := Choice(s);
      && Enabled(s, e) && Own(e) && Ready(Next(s, e))
      && (if s.pc.Idle? then Pending(s.rows) == [Pending(s.rows)[0]] + Pending(Next(s, e).rows)
          else Pending(Next(s, e).rows) == Pending(s.rows) && Left(Next(s, e)) < Left(s))
  {
    var s := ss[|es|];
    var e := Choice(s);
    if Busy(s) {
      NeverStuck(ss, es, |es|);
    } else if s.pc.Idle? {
      HeadCanBePopped(s, s.clock + 1);
    }
    RunSound(ss, es, |es|);
    NoLostWakeup(s, e);
    Exclusion.LeaseMoves(s, e);
    ChoicePends(ss, es, e);
  }

  lemma ChoicePends(ss: seq<State>, es: seq<Step>, e: Step)
    requires Run(ss, es) && Enabled(ss[|es|], e) && Own(e)
    ensures var s := ss[|es|];
      && (e.Wake? && !s.leaseHeld && Pending(s.rows) != [] ==>
            Pending(s.rows) == [Pending(s.rows)[0]] + Pending(Next(s, e).rows))
      && (!e.Wake? ==> Pending(Next(s, e).rows) == Pending(s.rows))
  {
    var s := ss[|es|];
    var ss', es' := Extend(ss, es, e);
    assert ss'[|es|] == s && es'[|es|] == e;
    if e.Wake? && !s.leaseHeld && Pending(s.rows) != [] {
      HeadCanBePopped(s.(notify := true, pc := Idle), s.clock + 1);
      PopTakesHead(ss', es', |es|, Pending(s.rows)[0]);
    } else if !e.Wake? {
      StepRefines(ss', es', |es|);
      WithoutOthers(Pending(s.rows), {});
    }
  }

  /** Full drain: from any state of any run in which no lease is held and no wakeup was lost, the daemon
      can go on by itself, without a client or a crash, until nobody is queued and nobody runs; and the
      jobs it pops on the way are those that were queued, in the queue's order. */
  lemma {:induction false} DrainsFully(ss: seq<State>, es: seq<Step>) returns (ss': seq<State>, es': seq<Step>)
    requires Run(ss, es) && Ready(ss[|es|])
    ensures Run(ss', es') && ss <= ss' && es <= es' && forall k :: |es| <= k < |es'| ==> Own(es'[k])
    ensures var t := ss'[|es'|]; t.pc.Idle? && QueuedIds(t.rows) == {}
    ensures Popped(ss', es', |es|, |es'|) == Pending(ss[|es|].rows)
    decreases |Pending(ss[|es|].rows)|, Left(ss[|es|])
  {
    var s := ss[|es|];
    if s.pc.Idle? && Pending(s.rows) == [] {
      ss', es' := ss, es;
      NobodyPending(s.rows);
    } else {
      ChoiceGoesOn(ss, es);
      var ss1, es1 := Extend(ss, es, Choice(s));
      ss', es' := DrainsFully(ss1, es1);
      assert ss'[|es|] == ss1[|es|] == s && es'[|es|] == es1[|es|];
      AllPopped(ss', es', |es|);
    }
  }

  lemma AllPopped(ss: seq<State>, es: seq<Step>, m: nat)
    requires Run(ss, es) && m <= |es| && forall k :: m <= k < |es| ==> Own(es[k])
    requires QueuedIds(ss[|es|].rows) == {}
    ensures Popped(ss, es, m, |es|) == Pending(ss[m].rows)
  {
    NobodyPending(ss[|es|].rows);
    DrainsInOrder(ss, es, m, |es|);
    assert Popped(ss, es, m, |es|) + [] == Popped(ss, es, m, |es|);
  }

  lemma NobodyPending(t: Table)
    ensures Pending(t) == [] <==> QueuedIds(t) == {}
  {
    if Pending(t) != [] { assert Pending(t)[0] in Pending(t); }
  }

  // ---- every schedule ------------------------------------------------------------------------------

  /** An own step that moves something on: not one more line or pid from the child, not a poll for a lease
      that is still held. */
  predicate MovesOn(s: State, e: Step)
  {
    Own(e) && !e.Appended? && !e.PidSeen? && !(e.PollRelease? && s.leaseHeld)
  }

  /** What is still to do: each queued job, the job under way, a wakeup, a lease that has been released. */
  function Work(s: State): nat
  {
    8 * |QueuedIds(s.rows)| + Doing(s) + Telling(s)
  }

  function Doing(s: State): nat { if s.pc.AwaitRelease? && s.leaseHeld then 0 else Left(s) }

  function Telling(s: State): nat { if s.notify && !(s.pc.AwaitRelease? && s.leaseHeld) then 1 else 0 }

  lemma WakeWorks(s: State, now: Stamp)
    requires Enabled(s, Wake(now))
    ensures Work(DoWake(s, now)) < Work(s)
  {
    var t := DoWake(s, now);
    if !s.leaseHeld && QueuedIds(s.rows) != {} {
      var id := NextQueued(s.rows).value;
      assert QueuedIds(t.rows) == QueuedIds(s.rows) - {id};
    }
  }

  lemma QueueWaits(s: State, e: Step)
    requires Sound(s) && Enabled(s, e) && Own(e) && !e.Wake?
    ensures QueuedIds(Next(s, e).rows) == QueuedIds(s.rows)
    ensures Next(s, e).notify == s.notify && Next(s, e).leaseHeld == s.leaseHeld
  {
    StepWrote(s, e);
    NotifyMoves(s, e);
    Exclusion.LeaseMoves(s, e);
  }

  lemma StartingWorks(s: State, e: Step)
    requires Enabled(s, e) && Streams.Mirroring(s)
    requires e.PollRelease? || e.EvictReturned? || e.EvictRaised? || e.MirrorStarted? || e.ChildSpawned?
    ensures MovesOn(s, e) ==> Left(Next(s, e)) < Left(s)
    ensures !MovesOn(s, e) ==> Next(s, e) == s
  {
  }

  lemma LinesWork(s: State, e: Step)
    requires Enabled(s, e) && Streams.Mirroring(s) && (e.Appended? || e.RunEnded? || e.MirrorTook?)
    ensures Left(Next(s, e)) + (if e.Appended? then 0 else 1) <= Left(s) + (if e.Appended? then 1 else 0)
  {
  }

  lemma RestWorks(s: State, e: Step)
    requires Enabled(s, e) && (e.PidSeen? || e.Finished?)
    ensures Left(Next(s, e)) + (if e.Finished? then 1 else 0) <= Left(s)
  {
  }

  lemma JobStepWorks(s: State, e: Step)
    requires Streams.Mirroring(s) && Enabled(s, e) && Own(e) && !e.Wake?
    ensures Left(Next(s, e)) + (if MovesOn(s, e) then 1 else 0) <= Left(s) + (if e.Appended? then 1 else 0)
  {
    if e.Appended? || e.RunEnded? || e.MirrorTook? {
      LinesWork(s, e);
    } else if e.PidSeen? || e.Finished? {
      RestWorks(s, e);
    } else {
      StartingWorks(s, e);
    }
  }

  /** An own step that moves on leaves less to do, a line leaves one more, and the others no more. */
  lemma OwnStepWorks(s: State, e: Step)
    requires Sound(s) && Streams.Mirroring(s) && Enabled(s, e) && Own(e)
    ensures Work(Next(s, e)) + (if MovesOn(s, e) then 1 else 0) <= Work(s) + (if e.Appended? then 1 else 0)
  {
    if e.Wake? {
      WakeWorks(s, e.now);
    } else {
      QueueWaits(s, e);
      JobStepWorks(s, e);
    }
  }

  /** How many of the steps m, ..., n-1 move on, and how many are lines. */
  ghost function Moves(ss: seq<State>, es: seq<Step>, m: nat, n: nat): nat
    requires m <= n <= |es| && |ss| == |es| + 1
  {
    if m == n then 0 else Moves(ss, es, m, n - 1) + if MovesOn(ss[n - 1], es[n - 1]) then 1 else 0
  }

  ghost function LinesIn(es: seq<Step>, m: nat, n: nat): nat
    requires m <= n <= |es|
  {
    if m == n then 0 else LinesIn(es, m, n - 1) + if es[n - 1].Appended? then 1 else 0
  }

  /** Left to itself, in whatever order its tasks take their turns, the daemon comes to rest: the steps that
      move something on are no more than there was to do, plus one for each line that the children write. */
  lemma {:induction false} EveryScheduleRests(ss: seq<State>, es: seq<Step>, m: nat, n: nat)
    requires Run(ss, es) && m <= n <= |es| && forall k :: m <= k < n ==> Own(es[k])
    ensures Moves(ss, es, m, n) + Work(ss[n]) <= Work(ss[m]) + LinesIn(es, m, n)
  {
    if m < n {
      EveryScheduleRests(ss, es, m, n - 1);
      RunStepWorks(ss, es, n - 1);
    }
  }

  lemma RunStepWorks(ss: seq<State>, es: seq<Step>, n: nat)
    requires Run(ss, es) && n < |es| && Own(es[n])
    ensures Work(ss[n + 1]) + (if MovesOn(ss[n], es[n]) then 1 else 0)
            <= Work(ss[n]) + (if es[n].Appended? then 1 else 0)
  {
    RunStep(ss, es, n);
    Streams.RunFlows(ss, es, n);
    OwnStepWorks(ss[n], es[n]);
  }

  /** Nothing the daemon does by itself can move anything on. */
  ghost predicate AtRest(s: State) { forall e :: Enabled(s, e) ==> !MovesOn(s, e) }

  lemma SomethingMoves(ss: seq<State>, es: seq<Step>, n: nat) returns (e: Step)
    requires Run(ss, es) && n <= |es|
    requires Busy(ss[n]) || (!ss[n].leaseHeld && (ss[n].pc.AwaitRelease? || ss[n].notify))
    ensures Enabled(ss[n], e) && MovesOn(ss[n], e)
  {
    var s := ss[n];
    if Busy(s) {
      NeverStuck(ss, es, n);
      e := Onward(s);
    } else {
      e := if s.pc.AwaitRelease? then PollRelease else Wake(s.clock + 1);
    }
  }

  /** At rest no job is under way; and nobody is queued, but for a held lease or a lost wakeup. */
  lemma RestIsDone(ss: seq<State>, es: seq<Step>, n: nat)
    requires Run(ss, es) && n <= |es| && AtRest(ss[n])
    ensures !Busy(ss[n])
    ensures !ss[n].leaseHeld ==> ss[n].pc.Idle? && !ss[n].notify
    ensures Ready(ss[n]) ==> QueuedIds(ss[n].rows) == {}
  {
    if Busy(ss[n]) || (!ss[n].leaseHeld && (ss[n].pc.AwaitRelease? || ss[n].notify)) {
      var e := SomethingMoves(ss, es, n);
    }
  }

  /** No theorem about runs is bought by ruling something out: in any state every request can come, the daemon
      can crash, an eviction can return with any models or raise, and a child can write any line, get any pid,
      and exit with any code. */
  lemma OutsideIsFree(s: State, id: JobId, task: TaskId, now: Stamp)
    requires now > s.clock
    ensures id !in s.used ==> forall work, priority, next, parent ::
      Enabled(s, Submit(id, work, priority, next, parent, now))
    ensures id !in s.used ==> forall original, force :: Enabled(s, Retry(id, original, force, now))
    ensures Enabled(s, Bump(id)) && (task !in s.leasing ==> Enabled(s, LeaseAsk(task)))
    ensures task !in s.cancels ==> forall signal :: Enabled(s, Cancel(task, id, signal, now))
    ensures task in s.cancels ==> forall expired :: Enabled(s, CancelPoll(task, expired))
    ensures forall fix, ids, minAge, alive :: Enabled(s, Doctor(fix, ids, minAge, alive, now))
    ensures forall states, keepTag, cutoff, dryRun :: Enabled(s, Step.Prune(states, keepTag, cutoff, dryRun))
    ensures forall claimed :: Enabled(s, Release(claimed, now))
    ensures Enabled(s, CrashRestart(now))
    ensures s.pc.Evicting? ==> Enabled(s, EvictRaised(now))
    ensures s.pc.Evicting? ==> forall models, opens :: Enabled(s, EvictReturned(models, opens, now))
    ensures task in s.leasing && s.leasing[task].EvictingFirst? ==> Enabled(s, LeaseEvictRaised(task))
    ensures At(s, Spawned) ==> forall line :: Enabled(s, Appended(line))
    ensures At(s, Spawned) ==> forall pid :: Enabled(s, PidSeen(pid))
    ensures At(s, Spawned) ==> forall how :: Enabled(s, RunEnded(how))
  {
  }
}
