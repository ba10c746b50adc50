/** Who holds the GPU: jobs against leases. */
module Exclusion {
  import opened Common
  import opened Machine
  import opened Invariants
  import opened History

  /** Never a held lease and a job at once. */
  predicate Exclusive(s: State) { !(s.leaseHeld && Busy(s)) }

  /** How a step changes who holds the lease. */
  lemma LeaseMoves(s: State, e: Step)
    requires Enabled(s, e)
    ensures Next(s, e).leaseHeld == (e.LeaseGrant? ||
              (s.leaseHeld && !e.CrashRestart? && !(e.Release? && s.leaseId == e.claimed)))
  {
  }

  /** One step breaks exclusion exactly when it grants a lease while a job is starting or running: the
      grant does not look again after its own eviction. */
  lemma ExclusionStep(s: State, e: Step)
    requires Enabled(s, e) && Exclusive(s)
    ensures Exclusive(Next(s, e)) <==> !(e.LeaseGrant? && Busy(s))
  {
    LeaseMoves(s, e);
    PcMoves(s, e);
    if e.LeaseGrant? { assert Next(s, e).pc == s.pc; }
    if e.Wake? { assert s.leaseHeld ==> Next(s, e).pc == AwaitRelease; }
  }

  ghost predicate NoRacingGrant(ss: seq<State>, es: seq<Step>, n: nat)
    requires n <= |es| && |ss| == |es| + 1
  {
    forall k :: 0 <= k < n ==> !(es[k].LeaseGrant? && Busy(ss[k]))
  }

  /** A run is exclusive throughout exactly when no lease in it is granted under a job. */
  lemma {:induction false} ExclusionExactly(ss: seq<State>, es: seq<Step>, n: nat)
    requires Run(ss, es) && n <= |es|
    ensures (forall k :: 0 <= k <= n ==> Exclusive(ss[k])) <==> NoRacingGrant(ss, es, n)
  {
    if n > 0 {
      ExclusionExactly(ss, es, n - 1);
      RunStep(ss, es, n - 1);
      if forall k :: 0 <= k <= n - 1 ==> Exclusive(ss[k]) {
        ExclusionStep(ss[n - 1], es[n - 1]);
      }
    }
  }

  /** With no hypothesis at all: a job is never taken from the queue while a lease is held. */
  lemma NeverPopsUnderLease(ss: seq<State>, es: seq<Step>, n: nat)
    requires Run(ss, es) && n < |es| && ss[n + 1].pc.Evicting? && ss[n].pc != ss[n + 1].pc
    ensures !ss[n].leaseHeld && ss[n].leaseId == None && !Busy(ss[n])
  {
    RunStep(ss, es, n);
    PcMoves(ss[n], es[n]);
  }

  // ---- runs in which nobody steps inside an eviction -----------------------------------------------

  /** While an eviction is under way, the only step is the one that ends it (or a crash). */
  ghost predicate Quiet(s: State, e: Step)
  {
    || e.CrashRestart?
    || ((s.pc.Evicting? ==> e.EvictReturned? || e.EvictRaised?)
        && forall t :: t in s.leasing && s.leasing[t].EvictingFirst? ==>
             (e.LeaseGrant? && e.task == t) || (e.LeaseEvictRaised? && e.task == t))
  }

  /** A lease that is being evicted for finds nobody on the GPU. */
  ghost predicate Calm(s: State)
  {
    && Exclusive(s)
    && forall t :: t in s.leasing && s.leasing[t].EvictingFirst? ==> !s.leaseHeld && !Busy(s)
  }

  lemma LeasingMoves(s: State, e: Step, t: TaskId)
    requires Sound(s) && Enabled(s, e) && t in Next(s, e).leasing && Next(s, e).leasing[t].EvictingFirst?
    ensures !e.CrashRestart?
    ensures (t in s.leasing && s.leasing[t].EvictingFirst? && Next(s, e).leasing[t] == s.leasing[t]
             && !(e.LeaseGrant? && e.task == t))
            || ((e.LeaseAsk? || e.LeasePoll?) && Free(s))
  {
    if !ByLeaseTask(e) && !e.CrashRestart? { LeasingStays(s, e); }
  }

  predicate ByLeaseTask(e: Step) { e.LeaseAsk? || e.LeasePoll? || e.LeaseGrant? || e.LeaseEvictRaised? }

  lemma LeasingStays(s: State, e: Step)
    requires Enabled(s, e) && !ByLeaseTask(e) && !e.CrashRestart?
    ensures Next(s, e).leasing == s.leasing
  {
    if ByHandler(e) { HandlersLeaveLeasing(s, e); }
  }

  lemma HandlersLeaveLeasing(s: State, e: Step)
    requires Enabled(s, e) && ByHandler(e) && !ByLeaseTask(e)
    ensures Next(s, e).leasing == s.leasing
  {
  }

  lemma CalmKept(s: State, e: Step)
    requires Sound(s) && Calm(s) && Quiet(s, e) && Enabled(s, e)
    ensures Calm(Next(s, e))
    ensures e.LeaseGrant? ==> !s.leaseHeld && !Busy(s)
  {
    ExclusionStep(s, e);
    LeaseMoves(s, e);
    PcMoves(s, e);
    forall t | t in Next(s, e).leasing && Next(s, e).leasing[t].EvictingFirst?
      ensures !Next(s, e).leaseHeld && !Busy(Next(s, e))
    {
      LeasingMoves(s, e, t);
    }
  }

  /** If no other task steps inside an eviction, no state of the run has both a held lease and a job, and
      no lease is ever granted while the server knows another. */
  lemma {:induction false} QuietRunsExclude(ss: seq<State>, es: seq<Step>, n: nat)
    requires Run(ss, es) && n <= |es| && forall k :: 0 <= k < n ==> Quiet(ss[k], es[k])
    ensures Calm(ss[n]) && Exclusive(ss[n])
    ensures n > 0 && es[n - 1].LeaseGrant? ==> !ss[n - 1].leaseHeld && !Busy(ss[n - 1])
  {
    if n > 0 {
      QuietRunsExclude(ss, es, n - 1);
      RunStep(ss, es, n - 1);
      CalmKept(ss[n - 1], es[n - 1]);
    }
  }

  // ---- the lease table -----------------------------------------------------------------------------

  /** The lease the server knows is in the table and still open. */
  predicate Booked(s: State)
  {
    s.leaseId.Some? ==> s.leaseId.value in s.leases && s.leases[s.leaseId.value].released.None?
  }

  lemma BookedByHandlers(s: State, e: Step)
    requires Enabled(s, e) && Booked(s) && ByHandler(e)
    ensures Booked(Next(s, e))
  {
  }

  lemma BookedByScheduler(s: State, e: Step)
    requires Enabled(s, e) && Booked(s) && !ByHandler(e)
    ensures Booked(Next(s, e)) && Next(s, e).leases == s.leases
  {
  }

  /** In every state of every run the lease is held exactly when the server knows one, and that one has
      its open row; so an open row is either the holder's or stranded. */
  lemma {:induction false} HeldLeaseIsOpen(ss: seq<State>, es: seq<Step>, n: nat)
    requires Run(ss, es) && n <= |es|
    ensures Booked(ss[n]) && (ss[n].leaseHeld <==> ss[n].leaseId.Some?)
  {
    RunSound(ss, es, n);
    if n > 0 {
      HeldLeaseIsOpen(ss, es, n - 1);
      RunStep(ss, es, n - 1);
      var s, e := ss[n - 1], es[n - 1];
      if ByHandler(e) { BookedByHandlers(s, e); } else { BookedByScheduler(s, e); }
    }
  }

  /** A release by the holder closes its row at that moment, frees the lease and wakes the scheduler.  A
      release without an id, while no lease is known, is taken for the holder's: it wakes the scheduler
      and changes nothing else.  Any other changes nothing. */
  lemma ReleaseCloses(ss: seq<State>, es: seq<Step>, n: nat)
    requires Run(ss, es) && n < |es| && es[n].Release?
    ensures var s, t, lid := ss[n], ss[n + 1], es[n].claimed;
      if s.leaseId == lid then
        && !t.leaseHeld && t.leaseId == None && t.notify && t.rows == s.rows
        && (lid.Some? ==>
              && lid.value in s.leases && s.leases[lid.value].released.None?
              && t.leases == s.leases[lid.value := s.leases[lid.value].(released := Some(es[n].now))])
        && (lid.None? ==> t.leases == s.leases && !s.leaseHeld)
      else t == s
  {
    RunStep(ss, es, n);
    HeldLeaseIsOpen(ss, es, n);
    HeldLeaseIsOpen(ss, es, n + 1);
  }

  // ---- a lease that is overwritten -----------------------------------------------------------------

  /** Granted, not released, and no longer the lease the server knows. */
  predicate Stranded(s: State, lid: LeaseId)
  {
    lid in s.leases && s.leases[lid].released.None? && s.leaseId != Some(lid)
  }

  /** The steps that make the server forget the lease it knows. */
  predicate Forgets(e: Step) { e.LeaseGrant? || e.CrashRestart? }

  lemma StrandedByHandlers(s: State, e: Step, lid: LeaseId)
    requires Enabled(s, e) && Booked(s) && (s.leaseHeld <==> s.leaseId.Some?) && ByHandler(e)
    ensures Stranded(Next(s, e), lid) <==> Stranded(s, lid) || (s.leaseId == Some(lid) && Forgets(e))
    ensures Stranded(s, lid) && e.Release? && e.claimed == Some(lid) ==> Next(s, e) == s
  {
  }

  lemma StrandedByScheduler(s: State, e: Step, lid: LeaseId)
    requires Enabled(s, e) && Booked(s) && !ByHandler(e)
    ensures Stranded(Next(s, e), lid) <==> Stranded(s, lid) || (s.leaseId == Some(lid) && Forgets(e))
  {
  }

  /** One step strands a lease exactly when the server knows it and the step is a grant or a crash. */
  lemma StrandsExactly(ss: seq<State>, es: seq<Step>, n: nat, lid: LeaseId)
    requires Run(ss, es) && n < |es|
    ensures Stranded(ss[n + 1], lid) <==> Stranded(ss[n], lid) || (ss[n].leaseId == Some(lid) && Forgets(es[n]))
    ensures Stranded(ss[n], lid) && es[n].Release? && es[n].claimed == Some(lid) ==> ss[n + 1] == ss[n]
  {
    RunStep(ss, es, n);
    HeldLeaseIsOpen(ss, es, n);
    if ByHandler(es[n]) { StrandedByHandlers(ss[n], es[n], lid); } else { StrandedByScheduler(ss[n], es[n], lid); }
  }

  ghost predicate NoneStranded(s: State) { forall lid: LeaseId :: !Stranded(s, lid) }

  ghost predicate NeverForgets(ss: seq<State>, es: seq<Step>, n: nat)
    requires n <= |es| && |ss| == |es| + 1
  {
    forall k :: 0 <= k < n ==> !(ss[k].leaseHeld && Forgets(es[k]))
  }

  /** One lease at a time, the lease table included: no state up to n has an open lease besides the one
      the server knows, exactly when no step up to n is a grant or a crash while a lease is held. */
  lemma {:induction false} OneLeaseExactly(ss: seq<State>, es: seq<Step>, n: nat)
    requires Run(ss, es) && n <= |es|
    ensures (forall k :: 0 <= k <= n ==> NoneStranded(ss[k])) <==> NeverForgets(ss, es, n)
  {
    if n > 0 {
      OneLeaseExactly(ss, es, n - 1);
      HeldLeaseIsOpen(ss, es, n - 1);
      forall lid: LeaseId
        ensures Stranded(ss[n], lid)
                <==> Stranded(ss[n - 1], lid) || (ss[n - 1].leaseId == Some(lid) && Forgets(es[n - 1]))
      {
        StrandsExactly(ss, es, n - 1, lid);
      }
      if ss[n - 1].leaseHeld && Forgets(es[n - 1]) {
        assert Stranded(ss[n], ss[n - 1].leaseId.value);
      }
    }
  }

  /** So leases never overlap, in the table either, when nobody steps inside an eviction and the daemon
      does not crash under a lease. */
  lemma QuietRunsNeverOverlap(ss: seq<State>, es: seq<Step>, n: nat)
    requires Run(ss, es) && n <= |es| && forall k :: 0 <= k < n ==> Quiet(ss[k], es[k])
    requires forall k :: 0 <= k < n && es[k].CrashRestart? ==> !ss[k].leaseHeld
    ensures NoneStranded(ss[n])
  {
    forall k | 0 <= k < n ensures !(ss[k].leaseHeld && Forgets(es[k])) { QuietRunsExclude(ss, es, k + 1); }
    OneLeaseExactly(ss, es, n);
  }

  /** A lease that is overwritten by a second grant, or forgotten in a crash, can never be released: its
      row stays open for good. */
  lemma {:induction false} StrandedForGood(ss: seq<State>, es: seq<Step>, m: nat, n: nat, lid: LeaseId)
    requires Run(ss, es) && m <= n <= |es| && Stranded(ss[m], lid)
    ensures Stranded(ss[n], lid)
  {
    if m < n {
      StrandedForGood(ss, es, m, n - 1, lid);
      StrandsExactly(ss, es, n - 1, lid);
    }
  }
}
