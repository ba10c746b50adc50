/** The cancel handler that waits: from its request to its reply, over whole runs. */
module Cancels {
  import opened Common
  import opened Machine
  import opened Invariants

  /** A cancel request that has to wait: the job is running. */
  predicate Begins(s: State, e: Step, task: TaskId, id: JobId)
  {
    e.Cancel? && e.task == task && e.id == id && id in s.rows && s.rows[id].state.Running?
  }

  /** KILL has been sent on behalf of the request of step k before step n: it asked for it, or its time was up
      at an earlier look. */
  ghost predicate KillSent(es: seq<Step>, k: nat, n: nat, task: TaskId)
    requires k < n <= |es| && es[k].Cancel?
  {
    es[k].signal.Kill? || exists j :: k < j < n && es[j] == CancelPoll(task, true)
  }

  /** The look that ends the wait: the job is over; or the time is up, and KILL has been sent already or there
      is no job to send it to. */
  predicate LastLook(s: State, e: Step, task: TaskId, id: JobId, killed: bool)
  {
    && e.CancelPoll? && e.task == task
    && (IsTerminal(s, id) || (e.expired && (killed || s.current.None?)))
  }

  /** The request of step k is still waiting in state n. */
  ghost predicate Waits(ss: seq<State>, es: seq<Step>, k: nat, n: nat, task: TaskId, id: JobId)
    requires n <= |es| && |ss| == |es| + 1
  {
    && k < n && Begins(ss[k], es[k], task, id)
    && forall j :: k < j < n ==> Waiting(ss, es, k, j, task, id)
  }

  ghost predicate Waiting(ss: seq<State>, es: seq<Step>, k: nat, j: nat, task: TaskId, id: JobId)
    requires k < j < |es| && |ss| == |es| + 1 && es[k].Cancel?
  {
    !es[j].CrashRestart? && !LastLook(ss[j], es[j], task, id, KillSent(es, k, j, task))
  }

  lemma BeginsWaits(s: State, e: Step, task: TaskId, id: JobId)
    requires Sound(s) && Enabled(s, e) && Begins(s, e, task, id)
    ensures task in Next(s, e).cancels && Next(s, e).cancels[task] == CancelWait(id, e.signal.Kill?)
  {
    assert RowSound(s, id);
  }

  lemma OthersLeaveWaits(s: State, e: Step, task: TaskId)
    requires Enabled(s, e) && !e.CrashRestart?
    requires !((e.Cancel? || e.CancelPoll?) && e.task == task)
    ensures task in Next(s, e).cancels <==> task in s.cancels
    ensures task in s.cancels ==> Next(s, e).cancels[task] == s.cancels[task]
  {
    if ByHandler(e) { HandlersLeaveWaits(s, e, task); } else { SchedulerLeavesWaits(s, e); }
  }

  lemma HandlersLeaveWaits(s: State, e: Step, task: TaskId)
    requires Enabled(s, e) && ByHandler(e) && !((e.Cancel? || e.CancelPoll?) && e.task == task)
    ensures task in Next(s, e).cancels <==> task in s.cancels
    ensures task in s.cancels ==> Next(s, e).cancels[task] == s.cancels[task]
  {
  }

  lemma SchedulerLeavesWaits(s: State, e: Step)
    requires Enabled(s, e) && !ByHandler(e) && !e.CrashRestart?
    ensures Next(s, e).cancels == s.cancels
  {
  }

  lemma CancelBegins(s: State, e: Step, task: TaskId)
    requires Sound(s) && Enabled(s, e) && e.Cancel? && e.task == task
    ensures task in Next(s, e).cancels <==> Begins(s, e, task, e.id)
  {
    if e.id in s.rows { assert RowSound(s, e.id); }
  }

  lemma PollGoesOn(s: State, e: Step, task: TaskId)
    requires Sound(s) && Enabled(s, e) && e.CancelPoll? && e.task == task
    ensures var c := s.cancels[task];
      && (task in Next(s, e).cancels <==> !LastLook(s, e, task, c.job, c.killed))
      && (task in Next(s, e).cancels ==> Next(s, e).cancels[task] == CancelWait(c.job, c.killed || e.expired))
  {
  }

  /** In every state of every run a handler waits exactly when a cancel of a running job came and no look since
      was the last one; it knows the job it was asked for, and whether KILL was sent. */
  lemma {:induction false} WaitsExactly(ss: seq<State>, es: seq<Step>, n: nat, task: TaskId)
    requires Run(ss, es) && n <= |es|
    ensures task in ss[n].cancels <==> exists k: nat, id :: Waits(ss, es, k, n, task, id)
    ensures forall k: nat, id :: Waits(ss, es, k, n, task, id) ==>
      ss[n].cancels[task] == CancelWait(id, KillSent(es, k, n, task))
  {
    if n > 0 {
      WaitsExactly(ss, es, n - 1, task);
      WaitsOnward(ss, es, n - 1, n, task);
    }
  }

  lemma WaitsOnward(ss: seq<State>, es: seq<Step>, m: nat, n: nat, task: TaskId)
    requires Run(ss, es) && m + 1 == n <= |es|
    requires task in ss[m].cancels <==> exists k: nat, id :: Waits(ss, es, k, m, task, id)
    requires forall k: nat, id :: Waits(ss, es, k, m, task, id) ==>
      ss[m].cancels[task] == CancelWait(id, KillSent(es, k, m, task))
    ensures task in ss[n].cancels <==> exists k: nat, id :: Waits(ss, es, k, n, task, id)
    ensures forall k: nat, id :: Waits(ss, es, k, n, task, id) ==>
      ss[n].cancels[task] == CancelWait(id, KillSent(es, k, n, task))
  {
    forall k: nat, id | Waits(ss, es, k, n, task, id)
      ensures task in ss[n].cancels && ss[n].cancels[task] == CancelWait(id, KillSent(es, k, n, task))
    {
      assert k < m ==> Waits(ss, es, k, m, task, id);
      StillWaits(ss, es, k, m, task, id);
    }
    if task in ss[n].cancels {
      var k, id := WaitsBecause(ss, es, m, task);
      assert Waits(ss, es, k, n, task, id);
    }
  }

  lemma StillWaits(ss: seq<State>, es: seq<Step>, k: nat, n: nat, task: TaskId, id: JobId)
    requires Run(ss, es) && n < |es| && Waits(ss, es, k, n + 1, task, id)
    requires k < n ==> task in ss[n].cancels && ss[n].cancels[task] == CancelWait(id, KillSent(es, k, n, task))
    ensures task in ss[n + 1].cancels && ss[n + 1].cancels[task] == CancelWait(id, KillSent(es, k, n + 1, task))
  {
    RunStep(ss, es, n);
    if k == n {
      BeginsWaits(ss[n], es[n], task, id);
    } else {
      assert Waiting(ss, es, k, n, task, id);
      KillSentStep(es, k, n, task);
      if es[n].CancelPoll? && es[n].task == task {
        PollGoesOn(ss[n], es[n], task);
      } else {
        OthersLeaveWaits(ss[n], es[n], task);
      }
    }
  }

  lemma KillSentStep(es: seq<Step>, k: nat, n: nat, task: TaskId)
    requires k < n < |es| && es[k].Cancel?
    ensures KillSent(es, k, n + 1, task) <==> KillSent(es, k, n, task) || es[n] == CancelPoll(task, true)
  {
  }

  lemma WaitsBecause(ss: seq<State>, es: seq<Step>, n: nat, task: TaskId) returns (k: nat, id: JobId)
    requires Run(ss, es) && n < |es| && task in ss[n + 1].cancels
    requires task in ss[n].cancels <==> exists k: nat, id :: Waits(ss, es, k, n, task, id)
    requires forall k: nat, id :: Waits(ss, es, k, n, task, id) ==>
      ss[n].cancels[task] == CancelWait(id, KillSent(es, k, n, task))
    ensures Waits(ss, es, k, n + 1, task, id)
  {
    RunStep(ss, es, n);
    NoWaitSurvivesCrash(ss[n], es[n]);
    if es[n].Cancel? && es[n].task == task {
      CancelBegins(ss[n], es[n], task);
      k, id := n, es[n].id;
    } else {
      if !es[n].CancelPoll? || es[n].task != task { OthersLeaveWaits(ss[n], es[n], task); }
      k, id :| Waits(ss, es, k, n, task, id);
      if es[n].CancelPoll? && es[n].task == task { PollGoesOn(ss[n], es[n], task); }
      assert Waiting(ss, es, k, n, task, id);
    }
  }

  lemma NoWaitSurvivesCrash(s: State, e: Step)
    requires Enabled(s, e)
    ensures e.CrashRestart? ==> Next(s, e).cancels == map[]
  {
  }

  /** Every look of a waiting handler, whatever happened before: it replies ok exactly when the job is over; it
      goes on waiting exactly when the job is not over and the time is not up; when the time is up it sends
      KILL to the process that is running then, if there is one, and the next time it replies wedged.  A
      handler that has replied is gone. */
  lemma LookReplies(ss: seq<State>, es: seq<Step>, k: nat, n: nat, task: TaskId, id: JobId)
    requires Run(ss, es) && n < |es| && Waits(ss, es, k, n, task, id)
    requires es[n].CancelPoll? && es[n].task == task
    ensures task in ss[n].cancels && ss[n].cancels[task].job == id
    ensures var s, r, killed := ss[n], PollOutcome(ss[n], ss[n].cancels[task], es[n].expired), KillSent(es, k, n, task);
      && (r == ReplyOk <==> IsTerminal(s, id))
      && (r == KeepWaiting <==> !IsTerminal(s, id) && !es[n].expired)
      && (r == ReplyWedged <==> !IsTerminal(s, id) && es[n].expired && killed)
      && (forall j: JobId :: r == Signalled(j, Kill) <==>
            !IsTerminal(s, id) && es[n].expired && !killed && s.current == Some(j))
      && (r == HandlerError <==> !IsTerminal(s, id) && es[n].expired && !killed && s.current.None?)
      && (task in ss[n + 1].cancels <==> r == KeepWaiting || r.Signalled?)
  {
    WaitsExactly(ss, es, n, task);
    RunStep(ss, es, n);
    PollGoesOn(ss[n], es[n], task);
  }
}
