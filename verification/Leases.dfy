/** Lease requests from asking to granting, and the lease table, over whole runs. */
module Leases {
  import opened Common
  import opened Machine
  import opened Invariants
  import opened Exclusion

  // ---- the request ---------------------------------------------------------------------------------

  /** A look of the request's loop. */
  predicate Checks(e: Step, task: TaskId) { (e.LeaseAsk? || e.LeasePoll?) && e.task == task }

  /** The request is over: granted, its eviction raised, or gone with the process. */
  predicate Settles(e: Step, task: TaskId)
  {
    e.CrashRestart? || ((e.LeaseGrant? || e.LeaseEvictRaised?) && e.task == task)
  }

  /** No job is being executed and no lease is known. */
  predicate Unoccupied(s: State) { !s.pc.Executing? && s.leaseId.None? }

  /** The request of step k is still open in state n. */
  ghost predicate Asking(es: seq<Step>, k: nat, n: nat, task: TaskId)
    requires n <= |es|
  {
    k < n && es[k] == LeaseAsk(task) && forall j :: k < j < n ==> !Settles(es[j], task)
  }

  ghost predicate PassedAt(ss: seq<State>, es: seq<Step>, k: nat, j: nat, n: nat, task: TaskId)
    requires n <= |es| && |ss| == |es| + 1
  {
    k <= j < n && Checks(es[j], task) && Unoccupied(ss[j])
  }

  lemma CheckMoves(s: State, e: Step, task: TaskId)
    requires Sound(s) && Enabled(s, e) && Checks(e, task)
    ensures task in Next(s, e).leasing
    ensures Next(s, e).leasing[task] == EvictingFirst <==> Unoccupied(s)
    ensures Next(s, e).leasing[task] == Polling <==> !Unoccupied(s)
    ensures Next(s, e).clock == s.clock && Next(s, e).leases == s.leases
  {
  }

  lemma SettlesMoves(s: State, e: Step, task: TaskId)
    requires Enabled(s, e) && Settles(e, task)
    ensures task !in Next(s, e).leasing
  {
  }

  lemma OthersLeaveRequest(s: State, e: Step, task: TaskId)
    requires Enabled(s, e) && !Checks(e, task) && !Settles(e, task)
    ensures task in Next(s, e).leasing <==> task in s.leasing
    ensures task in s.leasing ==> Next(s, e).leasing[task] == s.leasing[task]
  {
    if ByLeaseTask(e) { OtherTasksMove(s, e, task); } else { LeasingStays(s, e); }
  }

  lemma OtherTasksMove(s: State, e: Step, task: TaskId)
    requires Enabled(s, e) && ByLeaseTask(e) && e.task != task
    ensures task in Next(s, e).leasing <==> task in s.leasing
    ensures task in s.leasing ==> Next(s, e).leasing[task] == s.leasing[task]
  {
  }

  /** Every look, the first one and each poll, decides by what it finds: with no job being executed and no
      lease known the request goes on to its eviction, and can then be granted under any fresh id; otherwise
      it waits and can look again.  So a request never gets stuck behind a job that is over. */
  lemma CheckDecides(ss: seq<State>, es: seq<Step>, n: nat, task: TaskId)
    requires Run(ss, es) && n < |es| && Checks(es[n], task)
    ensures task in ss[n + 1].leasing
    ensures ss[n + 1].leasing[task] == EvictingFirst <==> Unoccupied(ss[n])
    ensures Unoccupied(ss[n]) ==> forall lid, now ::
      lid !in ss[n].leases && now > ss[n].clock ==> Enabled(ss[n + 1], LeaseGrant(task, lid, now))
    ensures Enabled(ss[n + 1], LeasePoll(task)) <==> !Unoccupied(ss[n])
  {
    RunStep(ss, es, n);
    CheckMoves(ss[n], es[n], task);
  }

  /** In every state of every run a request is open exactly when it was made and not settled since, and it
      is past its check exactly when some look of it found the GPU unoccupied. */
  lemma {:induction false} RequestExactly(ss: seq<State>, es: seq<Step>, n: nat, task: TaskId)
    requires Run(ss, es) && n <= |es|
    ensures task in ss[n].leasing <==> exists k: nat :: Asking(es, k, n, task)
    ensures forall k: nat :: Asking(es, k, n, task) ==>
      task in ss[n].leasing
      && (ss[n].leasing[task] == EvictingFirst <==> exists j: nat :: PassedAt(ss, es, k, j, n, task))
  {
    if n > 0 {
      RequestExactly(ss, es, n - 1, task);
      AskingStep(es, n - 1, n, task);
      RequestIsOpen(ss, es, n - 1, task);
      forall k: nat | Asking(es, k, n, task)
        ensures task in ss[n].leasing
        ensures ss[n].leasing[task] == EvictingFirst <==> exists j: nat :: PassedAt(ss, es, k, j, n, task)
      {
        assert k < n - 1 ==> Asking(es, k, n - 1, task);
        PassedAtStep(ss, es, k, n - 1, n, task);
        RequestOnward(ss, es, k, n - 1, task);
      }
    }
  }

  lemma AskingStep(es: seq<Step>, m: nat, n: nat, task: TaskId)
    requires m + 1 == n <= |es|
    ensures (exists k: nat :: Asking(es, k, n, task))
            <==> es[m] == LeaseAsk(task) || (!Settles(es[m], task) && exists k: nat :: Asking(es, k, m, task))
  {
    if es[m] == LeaseAsk(task) { assert Asking(es, m, n, task); }
    if !Settles(es[m], task) {
      if k: nat :| Asking(es, k, m, task) { assert Asking(es, k, n, task); }
    }
    if k: nat :| Asking(es, k, n, task) {
      assert k < m ==> Asking(es, k, m, task);
    }
  }

  lemma PassedAtStep(ss: seq<State>, es: seq<Step>, k: nat, m: nat, n: nat, task: TaskId)
    requires k <= m && m + 1 == n <= |es| && |ss| == |es| + 1
    ensures (exists j: nat :: PassedAt(ss, es, k, j, n, task))
            <==> (Checks(es[m], task) && Unoccupied(ss[m])) || exists j: nat :: PassedAt(ss, es, k, j, m, task)
  {
    if Checks(es[m], task) && Unoccupied(ss[m]) { assert PassedAt(ss, es, k, m, n, task); }
    if j: nat :| PassedAt(ss, es, k, j, m, task) { assert PassedAt(ss, es, k, j, n, task); }
    if j: nat :| PassedAt(ss, es, k, j, n, task) {
      assert j < m ==> PassedAt(ss, es, k, j, m, task);
    }
  }

  lemma RequestIsOpen(ss: seq<State>, es: seq<Step>, n: nat, task: TaskId)
    requires Run(ss, es) && n < |es|
    ensures task in ss[n + 1].leasing
            <==> es[n] == LeaseAsk(task) || (!Settles(es[n], task) && task in ss[n].leasing)
  {
    RunStep(ss, es, n);
    if Settles(es[n], task) {
      SettlesMoves(ss[n], es[n], task);
    } else if Checks(es[n], task) {
      CheckMoves(ss[n], es[n], task);
    } else {
      OthersLeaveRequest(ss[n], es[n], task);
    }
  }

  /** One more step of an open request. */
  lemma RequestOnward(ss: seq<State>, es: seq<Step>, k: nat, n: nat, task: TaskId)
    requires Run(ss, es) && n < |es| && k <= n && (es[k] == LeaseAsk(task)) && (k < n ==> !Settles(es[n], task))
    requires k < n ==> task in ss[n].leasing
    requires k < n ==>
      (ss[n].leasing[task] == EvictingFirst <==> exists j: nat :: PassedAt(ss, es, k, j, n, task))
    ensures task in ss[n + 1].leasing
    ensures ss[n + 1].leasing[task] == EvictingFirst
            <==> (Checks(es[n], task) && Unoccupied(ss[n])) || exists j: nat :: PassedAt(ss, es, k, j, n, task)
  {
    RunStep(ss, es, n);
    if Checks(es[n], task) {
      CheckMoves(ss[n], es[n], task);
    } else {
      OthersLeaveRequest(ss[n], es[n], task);
    }
  }

  // ---- the table -----------------------------------------------------------------------------------

  predicate Grants(e: Step, lid: LeaseId) { e.LeaseGrant? && e.lid == lid }

  /** The holder gives the lease back. */
  predicate Returns(s: State, e: Step, lid: LeaseId)
  {
    e.Release? && e.claimed == Some(lid) && s.leaseId == Some(lid)
  }

  ghost predicate GrantedAt(es: seq<Step>, k: nat, n: nat, lid: LeaseId, now: Stamp)
    requires n <= |es|
  {
    k < n && Grants(es[k], lid) && es[k].now == now
  }

  ghost predicate ReturnedAt(ss: seq<State>, es: seq<Step>, k: nat, n: nat, lid: LeaseId, now: Stamp)
    requires n <= |es| && |ss| == |es| + 1
  {
    k < n && Returns(ss[k], es[k], lid) && es[k].now == now
  }

  lemma GrantMoves(s: State, e: Step)
    requires Enabled(s, e) && e.LeaseGrant?
    ensures Next(s, e).leases == s.leases[e.lid := LeaseRow(e.now, None)] && e.lid !in s.leases
    ensures Next(s, e).leaseId == Some(e.lid) && Next(s, e).rows == s.rows
  {
  }

  lemma ReleaseMoves(s: State, e: Step, lid: LeaseId)
    requires Enabled(s, e) && e.Release? && Booked(s)
    ensures lid in Next(s, e).leases <==> lid in s.leases
    ensures lid in s.leases ==>
      Next(s, e).leases[lid] == if Returns(s, e, lid) then s.leases[lid].(released := Some(e.now)) else s.leases[lid]
  {
  }

  lemma OthersLeaveLeases(s: State, e: Step)
    requires Enabled(s, e) && !e.LeaseGrant? && !e.Release?
    ensures Next(s, e).leases == s.leases
    ensures Next(s, e).leaseId == if e.CrashRestart? then None else s.leaseId
  {
    if ByHandler(e) { HandlersLeaveLeases(s, e); } else { SchedulerLeavesLeases(s, e); }
  }

  lemma HandlersLeaveLeases(s: State, e: Step)
    requires Enabled(s, e) && ByHandler(e) && !e.LeaseGrant? && !e.Release?
    ensures Next(s, e).leases == s.leases && Next(s, e).leaseId == s.leaseId
  {
  }

  lemma SchedulerLeavesLeases(s: State, e: Step)
    requires Enabled(s, e) && !ByHandler(e)
    ensures Next(s, e).leases == s.leases
    ensures Next(s, e).leaseId == if e.CrashRestart? then None else s.leaseId
  {
  }

  /** What one step does to the row of a lease. */
  lemma LeaseRowStep(ss: seq<State>, es: seq<Step>, n: nat, lid: LeaseId)
    requires Run(ss, es) && n < |es|
    ensures lid in ss[n + 1].leases <==> lid in ss[n].leases || Grants(es[n], lid)
    ensures Grants(es[n], lid) ==> lid !in ss[n].leases && ss[n + 1].leases[lid] == LeaseRow(es[n].now, None)
    ensures lid in ss[n].leases ==>
      ss[n + 1].leases[lid] == if Returns(ss[n], es[n], lid) then ss[n].leases[lid].(released := Some(es[n].now))
                               else ss[n].leases[lid]
    ensures Returns(ss[n], es[n], lid) ==> lid in ss[n].leases && ss[n].leases[lid].released.None?
  {
    RunStep(ss, es, n);
    HeldLeaseIsOpen(ss, es, n);
    if es[n].LeaseGrant? {
      GrantMoves(ss[n], es[n]);
    } else if es[n].Release? {
      ReleaseMoves(ss[n], es[n], lid);
    } else {
      OthersLeaveLeases(ss[n], es[n]);
    }
  }

  lemma GrantedAtStep(es: seq<Step>, m: nat, n: nat, lid: LeaseId, now: Stamp)
    requires m + 1 == n <= |es|
    ensures (exists k: nat :: GrantedAt(es, k, n, lid, now))
            <==> (Grants(es[m], lid) && es[m].now == now) || exists k: nat :: GrantedAt(es, k, m, lid, now)
  {
    if Grants(es[m], lid) && es[m].now == now { assert GrantedAt(es, m, n, lid, now); }
    if k: nat :| GrantedAt(es, k, m, lid, now) { assert GrantedAt(es, k, n, lid, now); }
    if k: nat :| GrantedAt(es, k, n, lid, now) {
      assert k < m ==> GrantedAt(es, k, m, lid, now);
    }
  }

  lemma ReturnedAtStep(ss: seq<State>, es: seq<Step>, m: nat, n: nat, lid: LeaseId, now: Stamp)
    requires m + 1 == n <= |es| && |ss| == |es| + 1
    ensures (exists k: nat :: ReturnedAt(ss, es, k, n, lid, now))
            <==> (Returns(ss[m], es[m], lid) && es[m].now == now) || exists k: nat :: ReturnedAt(ss, es, k, m, lid, now)
  {
    if Returns(ss[m], es[m], lid) && es[m].now == now { assert ReturnedAt(ss, es, m, n, lid, now); }
    if k: nat :| ReturnedAt(ss, es, k, m, lid, now) { assert ReturnedAt(ss, es, k, n, lid, now); }
    if k: nat :| ReturnedAt(ss, es, k, n, lid, now) {
      assert k < m ==> ReturnedAt(ss, es, k, m, lid, now);
    }
  }

  /** The lease table of any state of any run, crashes included: a row for each lease ever granted, with the
      time of its grant, and with the time at which its holder returned it, if and only if it did. */
  lemma {:induction false} TableExactly(ss: seq<State>, es: seq<Step>, n: nat, lid: LeaseId, now: Stamp)
    requires Run(ss, es) && n <= |es|
    ensures lid in ss[n].leases && ss[n].leases[lid].granted == now <==> exists k: nat :: GrantedAt(es, k, n, lid, now)
    ensures lid in ss[n].leases && ss[n].leases[lid].released == Some(now)
            <==> exists k: nat :: ReturnedAt(ss, es, k, n, lid, now)
  {
    if n > 0 {
      TableExactly(ss, es, n - 1, lid, now);
      GrantedAtStep(es, n - 1, n, lid, now);
      ReturnedAtStep(ss, es, n - 1, n, lid, now);
      LeaseRowStep(ss, es, n - 1, lid);
    }
  }

  /** The lease the server knows after any step. */
  lemma KnownLeaseMoves(ss: seq<State>, es: seq<Step>, n: nat)
    requires Run(ss, es) && n < |es|
    ensures ss[n + 1].leaseId ==
      if es[n].LeaseGrant? then Some(es[n].lid)
      else if es[n].CrashRestart? || (es[n].Release? && es[n].claimed == ss[n].leaseId) then None
      else ss[n].leaseId
  {
    RunStep(ss, es, n);
    if es[n].LeaseGrant? {
      GrantMoves(ss[n], es[n]);
    } else if !es[n].Release? {
      OthersLeaveLeases(ss[n], es[n]);
    }
  }
}
