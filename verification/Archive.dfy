/** The log directories over whole runs, crashes and restarts included. */
module Archive {
  import opened Common
  import opened Logs
  import opened Prune
  import opened Machine
  import opened Invariants
  import opened History
  import opened Streams

  /** A prune that is no dry run has the job among its victims. */
  predicate Deletes(s: State, e: Step, id: JobId)
  {
    e.Prune? && !e.dryRun && id in Victims(s.rows, e.states, e.keepTag, e.cutoff)
  }

  /** The job's files were opened at step m and not deleted before state n. */
  ghost predicate KeptSince(ss: seq<State>, es: seq<Step>, m: nat, n: nat, id: JobId)
    requires n <= |es| && |ss| == |es| + 1
  {
    m < n && Starts(ss[m], es[m], id) && forall j :: m < j < n ==> !Deletes(ss[j], es[j], id)
  }

  /** Everything that the processes of job `id` wrote in the first n steps. */
  function Written(ss: seq<State>, es: seq<Step>, n: nat, id: JobId): seq<Line>
    requires n <= |es| && |ss| == |es| + 1
  {
    if n == 0 then [] else
      Written(ss, es, n - 1, id)
      + if es[n - 1].Appended? && Executes(ss[n - 1], id) then [es[n - 1].line] else []
  }

  lemma DirectoryStep(s: State, e: Step, id: JobId)
    requires Enabled(s, e)
    ensures id in Next(s, e).disk <==> (id in s.disk && !Deletes(s, e, id)) || Starts(s, e, id)
  {
    if ByHandler(e) { HandlersKeepDirectory(s, e, id); } else { SchedulerKeepsDirectory(s, e, id); }
  }

  lemma HandlersKeepDirectory(s: State, e: Step, id: JobId)
    requires Enabled(s, e) && ByHandler(e)
    ensures id in Next(s, e).disk <==> id in s.disk && !Deletes(s, e, id)
    ensures id in Next(s, e).disk ==> Next(s, e).disk[id] == s.disk[id]
  {
  }

  lemma SchedulerKeepsDirectory(s: State, e: Step, id: JobId)
    requires Enabled(s, e) && !ByHandler(e)
    ensures id in Next(s, e).disk <==> id in s.disk || Starts(s, e, id)
  {
  }

  lemma IndexStep(s: State, e: Step, id: JobId)
    requires Enabled(s, e) && id in s.disk && id in Next(s, e).disk
    ensures Next(s, e).disk[id].index
            == s.disk[id].index + if e.Appended? && Executes(s, id) then [e.line] else []
  {
    if ByHandler(e) { HandlersKeepDirectory(s, e, id); } else { SchedulerWrites(s, e, id); }
  }

  lemma SchedulerWrites(s: State, e: Step, id: JobId)
    requires Enabled(s, e) && !ByHandler(e) && id in s.disk && id in Next(s, e).disk
    ensures Next(s, e).disk[id].index
            == s.disk[id].index + if e.Appended? && Executes(s, id) then [e.line] else []
  {
    if !e.Appended? { FilesKept(s, e, id); }
  }

  lemma FilesKept(s: State, e: Step, id: JobId)
    requires Enabled(s, e) && !ByHandler(e) && !e.Appended? && id in s.disk && id in Next(s, e).disk
    ensures Next(s, e).disk[id] == s.disk[id]
  {
  }

  lemma StartsEmpty(s: State, e: Step, id: JobId)
    requires Enabled(s, e) && Starts(s, e, id) && id !in s.disk
    ensures id in Next(s, e).disk && Next(s, e).disk[id].index == []
  {
  }

  lemma {:induction false} NothingWrittenBefore(ss: seq<State>, es: seq<Step>, m: nat, n: nat, id: JobId)
    requires Run(ss, es) && m <= n <= |es| && ss[n].pc == Evicting(id)
    ensures Written(ss, es, m, id) == []
  {
    if m > 0 {
      NothingWrittenBefore(ss, es, m - 1, n, id);
      if Executes(ss[m - 1], id) {
        RunSound(ss, es, m - 1);
        if id in ss[m - 1].rows { assert RowSound(ss[m - 1], id); }
        PastStartForGood(ss, es, m - 1, n, id);
      }
    }
  }

  lemma KeptSinceStep(ss: seq<State>, es: seq<Step>, k: nat, n: nat, id: JobId)
    requires k + 1 == n <= |es| && |ss| == |es| + 1
    ensures (exists m: nat :: KeptSince(ss, es, m, n, id))
            <==> Starts(ss[k], es[k], id)
                 || (!Deletes(ss[k], es[k], id) && exists m: nat :: KeptSince(ss, es, m, k, id))
  {
    if Starts(ss[k], es[k], id) { assert KeptSince(ss, es, k, n, id); }
    if !Deletes(ss[k], es[k], id) {
      if m: nat :| KeptSince(ss, es, m, k, id) { assert KeptSince(ss, es, m, n, id); }
    }
    if m: nat :| KeptSince(ss, es, m, n, id) {
      assert m < k ==> KeptSince(ss, es, m, k, id);
    }
  }

  /** In every state of every run a job has its log directory exactly when its files were once opened and no
      prune has deleted it since; a crash takes nothing.  The log is then everything the job's processes have
      written, in order, and the three text files are what belongs to them of it. */
  lemma {:induction false} LogExactly(ss: seq<State>, es: seq<Step>, n: nat, id: JobId)
    requires Run(ss, es) && n <= |es|
    ensures id in ss[n].disk <==> exists m: nat :: KeptSince(ss, es, m, n, id)
    ensures id in ss[n].disk ==> ss[n].disk[id].index == Written(ss, es, n, id) && Consistent(ss[n].disk[id])
  {
    RunFlows(ss, es, n);
    assert Flowing(ss[n], id);
    if n > 0 {
      LogExactly(ss, es, n - 1, id);
      KeptSinceStep(ss, es, n - 1, n, id);
      LogOnward(ss, es, n - 1, id);
    }
  }

  lemma LogOnward(ss: seq<State>, es: seq<Step>, n: nat, id: JobId)
    requires Run(ss, es) && n < |es|
    requires id in ss[n].disk ==> ss[n].disk[id].index == Written(ss, es, n, id)
    ensures id in ss[n + 1].disk
            <==> (id in ss[n].disk && !Deletes(ss[n], es[n], id)) || Starts(ss[n], es[n], id)
    ensures id in ss[n + 1].disk ==> ss[n + 1].disk[id].index == Written(ss, es, n + 1, id)
  {
    RunStep(ss, es, n);
    DirectoryStep(ss[n], es[n], id);
    if id in ss[n].disk && id in ss[n + 1].disk {
      IndexStep(ss[n], es[n], id);
    } else if id in ss[n + 1].disk {
      StartsEmpty(ss[n], es[n], id);
      NothingWrittenBefore(ss, es, n, n, id);
    }
  }

  /** So what a job has logged outlives any number of crashes: it is still there, and only grows, unless it is
      pruned. */
  lemma LogSurvives(ss: seq<State>, es: seq<Step>, m: nat, n: nat, id: JobId)
    requires Run(ss, es) && m <= n <= |es| && id in ss[m].disk
    requires forall j :: m <= j < n ==> !Deletes(ss[j], es[j], id)
    ensures id in ss[n].disk && ss[m].disk[id].index <= ss[n].disk[id].index
  {
    LogExactly(ss, es, m, id);
    LogExactly(ss, es, n, id);
    var k: nat :| KeptSince(ss, es, k, m, id);
    assert KeptSince(ss, es, k, n, id);
    WrittenGrows(ss, es, m, n, id);
  }

  lemma {:induction false} WrittenGrows(ss: seq<State>, es: seq<Step>, m: nat, n: nat, id: JobId)
    requires m <= n <= |es| && |ss| == |es| + 1
    ensures Written(ss, es, m, id) <= Written(ss, es, n, id)
  {
    if m < n { WrittenGrows(ss, es, m, n - 1, id); }
  }
}
