/** Which runs lose a line on the way from the index to the clients. */
module Losses {
  import opened Common
  import opened Jobs
  import opened Logs
  import opened Events
  import opened Machine
  import opened Invariants
  import opened Streams
  import opened History

  /** A line is written after the run of its job is over: one pump has failed and the other goes on. */
  predicate Late(s: State, e: Step, id: JobId)
  {
    e.Appended? && s.pc.Executing? && s.pc.job == id && s.pc.stage.Draining?
  }

  ghost predicate LateAt(ss: seq<State>, es: seq<Step>, k: nat, n: nat, id: JobId)
    requires n <= |es| && |ss| == |es| + 1
  {
    k < n && Late(ss[k], es[k], id)
  }

  /** Lines wait in the mirror's queue behind the end marker, where the mirror will not read them. */
  predicate Behind(w: seq<Item>) { exists i :: 0 <= i < |w| - 1 && w[i].Eof? }

  predicate Missed(s: State, id: JobId)
  {
    LostOf(s, id) != [] || (Executes(s, id) && s.waiter.Some? && Behind(s.waiter.value))
  }

  lemma BehindAppended(w: seq<Item>, l: Line, j: nat)
    requires EofAt(w, j)
    ensures Behind(w + [Got(l)])
  {
    assert (w + [Got(l)])[j].Eof?;
  }

  lemma BehindEnded(w: seq<Item>)
    requires EofFree(w)
    ensures !Behind(w) && !Behind(w + [Item.Eof])
  {
  }

  lemma BehindTook(w: seq<Item>, j: nat)
    requires EofAt(w, j)
    ensures w[0].Got? ==> (Behind(w[1..]) <==> Behind(w))
    ensures w[0].Eof? ==> (Lines(w[1..]) != [] <==> Behind(w))
  {
    if w[0].Got? {
      assert w[1..][j - 1] == w[j];
    } else if |w| > 1 {
      assert w[1..][0] == w[1] && w[1].Got?;
      assert Lines(w[1..]) == [w[1].line] + Lines(w[1..][1..]);
    }
  }

  lemma AppendedMisses(s: State, t: State, l: Line, id: JobId)
    requires Mirroring(s) && Executes(s, id) && t.pc == s.pc
    requires s.pc.stage.Spawned? || s.pc.stage.Draining?
    requires t.waiter == if s.waiter.Some? then Some(s.waiter.value + [Got(l)]) else None
    requires t.lost == if s.waiter.Some? then s.lost else s.lost[id := LostOf(s, id) + [l]]
    ensures Missed(t, id) <==> Missed(s, id) || s.pc.stage.Draining?
  {
    if s.waiter.Some? && s.pc.stage.Draining? {
      var j: nat :| EofAt(s.waiter.value, j);
      BehindAppended(s.waiter.value, l, j);
    } else if s.waiter.Some? {
      BehindEnded(s.waiter.value);
      BehindEnded(s.waiter.value + [Got(l)]);
    }
  }

  lemma EndedMisses(s: State, how: RunEnd, id: JobId)
    requires Mirroring(s) && Executes(s, id) && Enabled(s, RunEnded(how))
    ensures Missed(DoRunEnded(s, id, how), id) <==> Missed(s, id)
  {
    BehindEnded(s.waiter.value);
  }

  lemma TookMisses(s: State, t: State, id: JobId)
    requires Mirroring(s) && Executes(s, id) && s.waiter.Some? && s.waiter.value != [] && t.pc == s.pc
    requires var w := s.waiter.value;
      if w[0].Got? then t.waiter == Some(w[1..]) && t.lost == s.lost
      else t.waiter == None && t.lost == s.lost[id := LostOf(s, id) + Lines(w[1..])]
    ensures Missed(t, id) <==> Missed(s, id)
  {
    var w := s.waiter.value;
    if s.pc.stage.Draining? {
      var j: nat :| EofAt(w, j);
      BehindTook(w, j);
    } else {
      assert w[0].Got?;
      BehindEnded(w);
      BehindEnded(w[1..]);
    }
  }

  /** The steps between the child and the clients. */
  predicate MovesLines(e: Step) { e.Appended? || e.RunEnded? || e.MirrorTook? || e.MirrorStarted? }

  lemma OthersMissNothing(s: State, e: Step, id: JobId)
    requires Enabled(s, e) && Executes(s, id) && !MovesLines(e) && !e.CrashRestart?
    requires e.Finished? ==> s.waiter.None?
    ensures Missed(Next(s, e), id) <==> Missed(s, id)
  {
  }

  lemma LinesMissed(s: State, e: Step, id: JobId)
    requires Enabled(s, e) && Mirroring(s) && Executes(s, id) && MovesLines(e)
    ensures Missed(Next(s, e), id) <==> Missed(s, id) || Late(s, e, id)
  {
    if e.Appended? {
      AppendedMisses(s, DoAppended(s, id, e.line), e.line, id);
    } else if e.RunEnded? {
      EndedMisses(s, e.how, id);
    } else if e.MirrorTook? {
      TookMisses(s, DoMirrorTook(s, id), id);
    }
  }

  /** While a job runs, one step loses a line, or puts one where it will be lost, exactly when it is late. */
  lemma MissedStep(s: State, e: Step, id: JobId)
    requires Enabled(s, e) && Mirroring(s) && Executes(s, id) && !e.CrashRestart?
    ensures Missed(Next(s, e), id) <==> Missed(s, id) || Late(s, e, id)
  {
    if MovesLines(e) { LinesMissed(s, e, id); } else { OthersMissNothing(s, e, id); }
  }

  lemma LostStays(s: State, e: Step, id: JobId)
    requires Enabled(s, e) && !Executes(s, id)
    ensures LostOf(Next(s, e), id) == LostOf(s, id)
  {
    if ByHandler(e) { HandlersLoseNothing(s, e); } else { SchedulerLosesOwn(s, e, id); }
  }

  lemma HandlersLoseNothing(s: State, e: Step)
    requires Enabled(s, e) && ByHandler(e)
    ensures Next(s, e).lost == s.lost
  {
  }

  lemma SchedulerLosesOwn(s: State, e: Step, id: JobId)
    requires Enabled(s, e) && !ByHandler(e) && !Executes(s, id)
    ensures LostOf(Next(s, e), id) == LostOf(s, id)
  {
  }

  /** A job that has not been started was never late. */
  lemma NeverLateBefore(ss: seq<State>, es: seq<Step>, k: nat, n: nat, id: JobId)
    requires Run(ss, es) && k < n <= |es| && ss[n].pc == Evicting(id)
    ensures !Late(ss[k], es[k], id)
  {
    if Late(ss[k], es[k], id) {
      RunSound(ss, es, k);
      if id in ss[k].rows { assert RowSound(ss[k], id); }
      PastStartForGood(ss, es, k, n, id);
    }
  }

  lemma MissedAtStart(ss: seq<State>, es: seq<Step>, m: nat, n: nat, id: JobId)
    requires Run(ss, es) && m + 1 == n <= |es| && Executes(ss[n], id) && !Executes(ss[m], id)
    ensures !Missed(ss[n], id) && forall k: nat :: !LateAt(ss, es, k, n, id)
  {
    RunStep(ss, es, m);
    RunFlows(ss, es, m);
    RunFlows(ss, es, n);
    PcMoves(ss[m], es[m]);
    assert ss[m].pc == Evicting(id);
    assert Flowing(ss[m], id);
    LostStays(ss[m], es[m], id);
    forall k: nat ensures !LateAt(ss, es, k, n, id) {
      if k < m { NeverLateBefore(ss, es, k, m, id); }
    }
  }

  lemma LateAtStep(ss: seq<State>, es: seq<Step>, m: nat, n: nat, id: JobId)
    requires m + 1 == n <= |es| && |ss| == |es| + 1
    ensures (exists k: nat :: LateAt(ss, es, k, n, id))
            <==> Late(ss[m], es[m], id) || exists k: nat :: LateAt(ss, es, k, m, id)
  {
    assert forall k: nat :: LateAt(ss, es, k, n, id) ==> k == m || LateAt(ss, es, k, m, id);
    if Late(ss[m], es[m], id) { assert LateAt(ss, es, m, n, id); }
    if k: nat :| LateAt(ss, es, k, m, id) { assert LateAt(ss, es, k, n, id); }
  }

  /** In any state of any run in which a job is executed or its stream is closed: a line of its output is
      lost, or will be, exactly when one was written after its run was over. */
  lemma {:induction false} MissedExactly(ss: seq<State>, es: seq<Step>, n: nat, id: JobId)
    requires Run(ss, es) && n <= |es| && (Executes(ss[n], id) || PhaseOf(FeedIn(ss[n], id)) == Shut)
    ensures Missed(ss[n], id) <==> exists k: nat :: LateAt(ss, es, k, n, id)
  {
    if n > 0 {
      var m := n - 1;
      RunStep(ss, es, m);
      LateAtStep(ss, es, m, n, id);
      if Executes(ss[m], id) {
        MissedExactly(ss, es, m, id);
        RunFlows(ss, es, m);
        MissedStep(ss[m], es[m], id);
      } else if Executes(ss[n], id) {
        MissedAtStart(ss, es, m, n, id);
      } else {
        StillShut(ss, es, m, id);
        MissedExactly(ss, es, m, id);
        LostStays(ss[m], es[m], id);
      }
    }
  }

  /** A feed is closed only by the step that ends the job's execution. */
  lemma StillShut(ss: seq<State>, es: seq<Step>, m: nat, id: JobId)
    requires Run(ss, es) && m < |es| && !Executes(ss[m], id) && PhaseOf(FeedIn(ss[m + 1], id)) == Shut
    ensures PhaseOf(FeedIn(ss[m], id)) == Shut && !es[m].CrashRestart?
  {
    RunStep(ss, es, m);
    if !es[m].CrashRestart? {
      RunFlows(ss, es, m);
      assert Flowing(ss[m], id);
      if Publishes(ss[m], es[m], id) {
        NotShutYet(ss[m], es[m], id);
      } else {
        FeedStays(ss[m], es[m], id);
      }
    }
  }

  lemma NotShutYet(s: State, e: Step, id: JobId)
    requires Enabled(s, e) && Publishes(s, e, id) && !Executes(s, id) && FeedIn(s, id) == []
    ensures PhaseOf(FeedIn(Next(s, e), id)) != Shut
  {
    if e.Cancel? {
      assert FeedIn(Next(s, e), id) == [EndEv(Cancelled, None), Event.Closed];
      DroppedFeed();
    } else {
      StartIsNotShut(e.models, e.opens, e.now);
      StartingFeed(s, e, id);
    }
  }

  /** What an eviction's return publishes. */
  function Starting(models: seq<string>, opens: bool, now: Stamp): Feed
  {
    (if models != [] then [EvictedEv(models)] else []) + (if opens then [RunningEv(now)] else [])
  }

  lemma StartingFeed(s: State, e: Step, id: JobId)
    requires Enabled(s, e) && e.EvictReturned? && s.pc.job == id && FeedIn(s, id) == []
    ensures FeedIn(Next(s, e), id) == Starting(e.models, e.opens, e.now)
  {
  }

  lemma StartIsNotShut(models: seq<string>, opens: bool, now: Stamp)
    ensures PhaseOf(Starting(models, opens, now)) != Shut
  {
    var f := Starting(models, opens, now);
    if f != [] { assert !f[|f| - 1].Closed?; }
  }
}
