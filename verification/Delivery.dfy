/** What clients receive: the submitter that stays, and the follower that attaches in the middle. */
module Delivery {
  import opened Common
  import opened Jobs
  import opened Logs
  import opened Events
  import opened Prune
  import opened Machine
  import opened Invariants
  import opened Streams
  import opened History
  import opened Losses

  // ---- feeds only grow, until a crash --------------------------------------------------------------

  lemma FeedExtends(s: State, e: Step, id: JobId)
    requires Enabled(s, e) && !e.CrashRestart?
    ensures FeedIn(s, id) <= FeedIn(Next(s, e), id)
  {
    if !Publishes(s, e, id) {
      FeedStays(s, e, id);
    } else if e.Cancel? {
      PublishedExtends(s.feeds, id, EndEv(Cancelled, None), Event.Closed);
    } else if e.EvictReturned? {
      PublishedExtends(s.feeds, id, EvictedEv(e.models), RunningEv(e.now));
    } else if e.Finished? {
      PublishedExtends(s.feeds, id, EndEv(Verdict(s.pc.stage.rc, s.pc.stage.clean), Some(s.pc.stage.rc)),
                       Event.Closed);
    }
  }

  lemma PublishedExtends(feeds: map<JobId, Feed>, id: JobId, a: Event, b: Event)
    ensures FeedOf(feeds, id) <= FeedOf(Published(feeds, id, a), id)
    ensures FeedOf(feeds, id) <= FeedOf(Published(feeds, id, b), id)
    ensures FeedOf(feeds, id) <= FeedOf(Published(Published(feeds, id, a), id, b), id)
  {
  }

  ghost predicate NoCrash(es: seq<Step>, m: nat, n: nat)
    requires n <= |es|
  {
    forall k :: m <= k < n ==> !es[k].CrashRestart?
  }

  /** What was published stays published. */
  lemma {:induction false} FeedsGrow(ss: seq<State>, es: seq<Step>, m: nat, n: nat, id: JobId)
    requires Run(ss, es) && m <= n <= |es| && NoCrash(es, m, n)
    ensures FeedIn(ss[m], id) <= FeedIn(ss[n], id)
  {
    if m < n {
      FeedsGrow(ss, es, m, n - 1, id);
      RunStep(ss, es, n - 1);
      FeedExtends(ss[n - 1], es[n - 1], id);
    }
  }

  // ---- the submitter that stays --------------------------------------------------------------------

  /** A new job's feed is empty, so whoever submits it and stays is subscribed from its first event. */
  lemma SubmittedFromTheStart(ss: seq<State>, es: seq<Step>, m: nat)
    requires Run(ss, es) && m < |es| && es[m].Submit?
    ensures FeedIn(ss[m + 1], es[m].id) == []
  {
    RunFlows(ss, es, m);
    RunStep(ss, es, m);
    assert Flowing(ss[m], es[m].id);
    FeedStays(ss[m], es[m], es[m].id);
  }

  /** The first events of a job: the eviction, if it unloaded anything, and then, if its log files open, that it
      is running. */
  lemma Announced(ss: seq<State>, es: seq<Step>, n: nat)
    requires Run(ss, es) && n < |es| && es[n].EvictReturned?
    ensures ss[n].pc.Evicting?
    ensures var e, f := es[n], FeedIn(ss[n + 1], ss[n].pc.job);
      && (e.models != [] ==> f != [] && f[0] == EvictedEv(e.models))
      && (e.opens ==> f != [] && f[|f| - 1] == RunningEv(e.now))
      && |f| == (if e.models != [] then 1 else 0) + (if e.opens then 1 else 0)
  {
    RunStep(ss, es, n);
    RunFlows(ss, es, n);
    assert Flowing(ss[n], ss[n].pc.job);
    AnnouncementAdds(ss[n], es[n], ss[n].pc.job);
  }

  /** At every point of its run, what was published of the current job's output is what the index holds
      except for the lines the mirror has still to take; only a pump that outlives a failed run can add
      lines that the mirror never takes. */
  lemma PublishedSoFar(ss: seq<State>, es: seq<Step>, n: nat)
    requires Run(ss, es) && n <= |es| && ss[n].pc.Executing? && ss[n].pc.job in ss[n].disk
    ensures var s, id := ss[n], ss[n].pc.job;
      && LogsOf(FeedIn(s, id)) + InFlight(s, id) + LostOf(s, id) == s.disk[id].index
      && (LostOf(s, id) != [] ==> s.pc.stage.Draining? && s.pc.stage.orphan)
  {
    RunFlows(ss, es, n);
    assert Flowing(ss[n], ss[n].pc.job);
  }

  /** The feed's last word, before the marker that closes it. */
  predicate ClosedWith(f: Feed, ev: Event) { |f| >= 2 && f[|f| - 2] == ev && f[|f| - 1].Closed? }

  /** When a job finishes, its feed is closed, its last word is what its row says, and every line is out
      unless a pump had failed. */
  lemma FinishCloses(ss: seq<State>, es: seq<Step>, n: nat, id: JobId, rc: int, clean: bool, orphan: bool)
    requires Run(ss, es) && n < |es| && es[n].Finished? && ss[n].pc == Executing(id, Draining(rc, clean, orphan))
    ensures PhaseOf(FeedIn(ss[n + 1], id)) == Shut
    ensures ClosedWith(FeedIn(ss[n + 1], id), EndEv(Verdict(rc, clean), Some(rc)))
    ensures id in ss[n + 1].rows ==>
      ss[n + 1].rows[id].state == Verdict(rc, clean) && ss[n + 1].rows[id].exitCode == Some(rc)
    ensures !orphan ==> LostOf(ss[n + 1], id) == []
  {
    RunStep(ss, es, n);
    RunFlows(ss, es, n);
    FinishedFeed(ss[n], ss[n + 1], id, rc, clean);
  }

  lemma FinishedFeed(s: State, t: State, id: JobId, rc: int, clean: bool)
    requires Sound(s) && Flowing(s, id) && s.pc.Executing? && s.pc.job == id && (!clean ==> rc == -1)
    requires t.feeds == Published(Published(s.feeds, id, EndEv(Verdict(rc, clean), Some(rc))), id, Event.Closed)
    ensures PhaseOf(FeedIn(t, id)) == Shut && ClosedWith(FeedIn(t, id), EndEv(Verdict(rc, clean), Some(rc)))
  {
    FinalFeed(FeedIn(s, id), rc, clean);
    assert FeedIn(t, id) == FeedIn(s, id) + [EndEv(Verdict(rc, clean), Some(rc))] + [Event.Closed];
  }

  /** The stream of a job that ran to its end: whoever was subscribed from the start is sent every
      published event up to the single terminal one, which is the last, and then released.  The log lines
      in it are the lines of the index, all of them and in order, exactly when no line was written after
      the run was over, which needs a failed pump. */
  lemma SubmitterGetsEverything(ss: seq<State>, es: seq<Step>, n: nat, id: JobId)
    requires Run(ss, es) && n <= |es| && PhaseOf(FeedIn(ss[n], id)) == Shut
    ensures var f := FeedIn(ss[n], id);
      && StreamEnds(f) && Streamed(f) == f[..|f| - 1]
      && |f| >= 2 && f[|f| - 2].EndEv? && EndFree(f[..|f| - 2])
    ensures id in ss[n].disk ==> (LogsOf(Streamed(FeedIn(ss[n], id))) == ss[n].disk[id].index
                                  <==> forall k: nat :: !LateAt(ss, es, k, n, id))
  {
    var f := FeedIn(ss[n], id);
    ClosedShape(f);
    ClosedStreamed(f);
    assert f[|f| - 1].Closed?;
    RunFlows(ss, es, n);
    assert Flowing(ss[n], id);
    MissedExactly(ss, es, n, id);
    if id in ss[n].disk { Remainder(LogsOf(f), LostOf(ss[n], id), ss[n].disk[id].index); }
  }

  lemma Remainder(a: seq<Line>, b: seq<Line>, c: seq<Line>)
    requires a + [] + b == c
    ensures a == c <==> b == []
  {
    assert |a| + |b| == |c|;
    assert b == [] ==> a + [] + b == a;
  }

  // ---- the follower that attaches in the middle ----------------------------------------------------

  lemma {:induction false} LogsOfPrefix(f: Feed, g: Feed)
    requires f <= g
    ensures LogsOf(g) == LogsOf(f) + LogsOf(g[|f|..])
  {
    assert g == f + g[|f|..];
    LogsOfAppend(f, g[|f|..]);
  }

  predicate TouchesFiles(e: Step)
  {
    e.Appended? || e.MirrorTook? || e.EvictReturned? || e.Prune? || e.CrashRestart?
  }

  lemma FilesUntouched(s: State, e: Step)
    requires Enabled(s, e) && !TouchesFiles(e)
    ensures SameFiles(s, Next(s, e))
  {
  }

  lemma FilesStep(s: State, e: Step, id: JobId)
    requires Enabled(s, e) && s.pc != Evicting(id) && id in Next(s, e).disk
    ensures id in s.disk && s.disk[id].index <= Next(s, e).disk[id].index
    ensures LostOf(s, id) <= LostOf(Next(s, e), id)
  {
    if TouchesFiles(e) { FilesTouched(s, e, id); } else { FilesUntouched(s, e); }
  }

  lemma FilesTouched(s: State, e: Step, id: JobId)
    requires Enabled(s, e) && TouchesFiles(e) && s.pc != Evicting(id) && id in Next(s, e).disk
    ensures id in s.disk && s.disk[id].index <= Next(s, e).disk[id].index
    ensures LostOf(s, id) <= LostOf(Next(s, e), id)
  {
  }

  /** A directory that is still there has been there since the job started, and its index only grew. */
  lemma {:induction false} FilesGrow(ss: seq<State>, es: seq<Step>, m: nat, n: nat, id: JobId)
    requires Run(ss, es) && m <= n <= |es| && PastStart(ss[m], id) && id in ss[n].disk
    ensures id in ss[m].disk && ss[m].disk[id].index <= ss[n].disk[id].index
    ensures LostOf(ss[m], id) <= LostOf(ss[n], id)
  {
    if m < n {
      PastStartForGood(ss, es, m, n - 1, id);
      RunStep(ss, es, n - 1);
      FilesStep(ss[n - 1], es[n - 1], id);
      FilesGrow(ss, es, m, n - 1, id);
    }
  }

  lemma Overlap(shown: seq<Line>, waiting: seq<Line>, live: seq<Line>)
    requires shown + waiting <= shown + live
    ensures waiting <= live && shown + live == (shown + waiting) + live[|waiting|..]
  {
    forall i | 0 <= i < |waiting| ensures waiting[i] == live[i] {
      assert (shown + waiting)[|shown| + i] == (shown + live)[|shown| + i];
    }
  }

  /** Attaching "from the start" at state m, while the job runs, sends the index as it is, and then the
      log lines of the feed from there on, until the stream has closed (state n).  All of it agrees with
      the whole log: history is a prefix of it, and so is what had been published by m followed by the live
      part.  If no line was written after the run was over, history and live part cover the whole log and
      overlap in exactly the lines that were waiting in the mirror's queue at m. */
  lemma AttachedView(ss: seq<State>, es: seq<Step>, m: nat, n: nat, id: JobId)
    requires Run(ss, es) && m <= n <= |es| && NoCrash(es, m, n) && Executes(ss[m], id)
    requires PhaseOf(FeedIn(ss[n], id)) == Shut && id in ss[n].disk
    ensures id in ss[m].disk && FeedIn(ss[m], id) <= FeedIn(ss[n], id)
    ensures var history, whole := ss[m].disk[id].index, ss[n].disk[id].index;
            var before, live := LogsOf(FeedIn(ss[m], id)), LogsOf(FeedIn(ss[n], id)[|FeedIn(ss[m], id)|..]);
            var waiting := InFlight(ss[m], id);
      && history <= whole
      && whole == before + live + LostOf(ss[n], id)
      && (LostOf(ss[n], id) == [] ==>
            history == before + waiting && waiting <= live && whole == history + live[|waiting|..])
  {
    RunFlows(ss, es, m);
    RunFlows(ss, es, n);
    RunSound(ss, es, m);
    assert Flowing(ss[m], id) && Flowing(ss[n], id);
    if id in ss[m].rows { assert RowSound(ss[m], id); }
    FilesGrow(ss, es, m, n, id);
    FeedsGrow(ss, es, m, n, id);
    var f, g := FeedIn(ss[m], id), FeedIn(ss[n], id);
    LogsOfPrefix(f, g);
    assert InFlight(ss[n], id) == [] && LogsOf(g) + [] == LogsOf(g);
    if LostOf(ss[n], id) == [] {
      assert LostOf(ss[m], id) == [] && LogsOf(g) + [] == LogsOf(g);
      assert LogsOf(f) + InFlight(ss[m], id) + [] == LogsOf(f) + InFlight(ss[m], id);
      Overlap(LogsOf(f), InFlight(ss[m], id), LogsOf(g[|f|..]));
    }
  }

  /** Every line of the log is in the history, or among what was published before and after attaching. */
  predicate Covered(whole: seq<Line>, history: seq<Line>, before: seq<Line>, live: seq<Line>)
  {
    |history| >= |whole| || |before + live| >= |whole|
  }

  /** A follower from the start misses no line exactly when it attached after the last line was written, or
      no line was written after the run was over. */
  lemma AttachMissesNothing(ss: seq<State>, es: seq<Step>, m: nat, n: nat, id: JobId)
    requires Run(ss, es) && m <= n <= |es| && NoCrash(es, m, n) && Executes(ss[m], id)
    requires PhaseOf(FeedIn(ss[n], id)) == Shut && id in ss[n].disk
    ensures id in ss[m].disk && FeedIn(ss[m], id) <= FeedIn(ss[n], id)
    ensures var history, whole := ss[m].disk[id].index, ss[n].disk[id].index;
            var before, live := LogsOf(FeedIn(ss[m], id)), LogsOf(FeedIn(ss[n], id)[|FeedIn(ss[m], id)|..]);
            var waiting := InFlight(ss[m], id);
      && history <= whole && before + live <= whole
      && (Covered(whole, history, before, live)
          <==> history == whole || forall k: nat :: !LateAt(ss, es, k, n, id))
      && ((forall k: nat :: !LateAt(ss, es, k, n, id)) ==>
            history == before + waiting && waiting <= live && whole == history + live[|waiting|..])
  {
    AttachedView(ss, es, m, n, id);
    MissedExactly(ss, es, n, id);
    RunFlows(ss, es, n);
    assert Flowing(ss[n], id);
  }

  // ---- doctor --------------------------------------------------------------------------------------

  lemma {:induction false} SilentText(ls: seq<Line>)
    ensures Text(ls) == "" <==> forall i :: 0 <= i < |ls| ==> ls[i].text == ""
  {
    if ls != [] { SilentText(ls[..|ls| - 1]); }
  }

  /** Nothing of a job's output is in its index. */
  ghost predicate Silent(s: State, id: JobId)
  {
    id in s.disk ==> forall i :: 0 <= i < |s.disk[id].index| ==> s.disk[id].index[i].text == ""
  }

  /** In every state of every run doctor reports the current job and no other, exactly when it is asked
      for, old enough, silent so far, and without a live process. */
  lemma DoctorReportsExactly(ss: seq<State>, es: seq<Step>, n: nat, id: JobId, ids: set<JobId>, minAge: int,
                             alive: set<int>, now: Stamp)
    requires Run(ss, es) && n <= |es|
    ensures var s := ss[n];
      id in Wedged(s, ids, minAge, alive, now) <==>
        && s.current == Some(id) && id in s.rows && (ids == {} || id in ids)
        && now - s.rows[id].started.GetOr(now) >= minAge && Silent(s, id)
        && (s.rows[id].pid.None? || s.rows[id].pid.value !in alive)
    ensures var s := ss[n];
      id in Wedged(s, ids, minAge, alive, now) ==>
        WedgeSignature(s.rows[id], CombinedLog(s, id), now, minAge, alive)
          == Some(if s.rows[id].pid.None? then NoPid else DeadPid)
  {
    RunSound(ss, es, n);
    RunFlows(ss, es, n);
    assert Flowing(ss[n], id);
    if id in ss[n].rows { assert RowSound(ss[n], id); }
    if id in ss[n].disk { SilentText(ss[n].disk[id].index); }
  }

  // ---- who is released, and who never is -------------------------------------------------------------

  /** The steps that end a job's stream: its executed run finishes, or it is cancelled while queued. */
  predicate Releases(s: State, e: Step, id: JobId)
  {
    || (e.Finished? && s.pc.Executing? && s.pc.job == id)
    || (e.Cancel? && e.id == id && id in QueuedIds(s.rows))
  }

  lemma EndsWithin(f: Feed, g: Feed)
    ensures StreamEnds(f + g) <==> StreamEnds(f) || StreamEnds(g)
  {
    assert forall i :: 0 <= i < |f| ==> (f + g)[i] == f[i];
    assert forall i :: 0 <= i < |g| ==> (f + g)[|f| + i] == g[i];
    assert forall i :: |f| <= i < |f + g| ==> (f + g)[i] == g[i - |f|];
  }

  /** What a publishing step adds to the feed of its job. */
  function Added(s: State, e: Step): Feed
    requires Enabled(s, e)
  {
    match e
    case Cancel(_, _, _, _) => [EndEv(Cancelled, None), Event.Closed]
    case EvictReturned(models, opens, now) =>
      (if models != [] then [EvictedEv(models)] else []) + (if opens then [RunningEv(now)] else [])
    case MirrorTook => if s.waiter.value[0].Got? then [LogEv(s.waiter.value[0].line)] else []
    case Finished(_) => [EndEv(Verdict(s.pc.stage.rc, s.pc.stage.clean), Some(s.pc.stage.rc)), Event.Closed]
    case _ => []
  }

  lemma FeedAdds(s: State, e: Step, id: JobId)
    requires Enabled(s, e) && Publishes(s, e, id)
    ensures FeedIn(Next(s, e), id) == FeedIn(s, id) + Added(s, e)
  {
    if e.EvictReturned? { AnnouncementAdds(s, e, id); }
  }

  lemma AnnouncementAdds(s: State, e: Step, id: JobId)
    requires Enabled(s, e) && Publishes(s, e, id) && e.EvictReturned?
    ensures FeedIn(Next(s, e), id) == FeedIn(s, id) + Added(s, e)
  {
  }

  lemma AddedEnds(s: State, e: Step)
    requires Enabled(s, e)
    ensures StreamEnds(Added(s, e)) <==> e.Cancel? || e.Finished?
  {
    if e.Cancel? || e.Finished? { assert Added(s, e)[0].EndEv?; }
  }

  lemma ReleaseStep(s: State, e: Step, id: JobId)
    requires Enabled(s, e) && !e.CrashRestart?
    ensures StreamEnds(FeedIn(Next(s, e), id)) <==> StreamEnds(FeedIn(s, id)) || Releases(s, e, id)
  {
    if Publishes(s, e, id) {
      FeedAdds(s, e, id);
      AddedEnds(s, e);
      EndsWithin(FeedIn(s, id), Added(s, e));
    } else {
      FeedStays(s, e, id);
    }
  }

  /** Since the last crash (a crash drops every connection), job `id` was released at step k. */
  ghost predicate ReleasedAt(ss: seq<State>, es: seq<Step>, k: nat, n: nat, id: JobId)
    requires n <= |es| && |ss| == |es| + 1
  {
    k < n && NoCrash(es, k, n) && Releases(ss[k], es[k], id)
  }

  /** In any state of any run, a job's stream has ended exactly when, since the last crash, its executed
      run finished or it was cancelled while queued.  Nothing else that ends a job releases its clients. */
  lemma {:induction false} ReleasedExactly(ss: seq<State>, es: seq<Step>, n: nat, id: JobId)
    requires Run(ss, es) && n <= |es|
    ensures StreamEnds(FeedIn(ss[n], id)) <==> exists k: nat :: ReleasedAt(ss, es, k, n, id)
  {
    if n > 0 {
      ReleasedExactly(ss, es, n - 1, id);
      RunStep(ss, es, n - 1);
      ReleasedAtStep(ss, es, n - 1, n, id);
      if !es[n - 1].CrashRestart? { ReleaseStep(ss[n - 1], es[n - 1], id); }
    }
  }

  lemma ReleasedAtStep(ss: seq<State>, es: seq<Step>, m: nat, n: nat, id: JobId)
    requires m + 1 == n <= |es| && |ss| == |es| + 1
    ensures (exists k: nat :: ReleasedAt(ss, es, k, n, id)) <==>
      !es[m].CrashRestart? && (Releases(ss[m], es[m], id) || exists k: nat :: ReleasedAt(ss, es, k, m, id))
  {
    if k: nat :| ReleasedAt(ss, es, k, n, id) {
      assert k < m ==> ReleasedAt(ss, es, k, m, id);
    } else if !es[m].CrashRestart? {
      assert Releases(ss[m], es[m], id) ==> ReleasedAt(ss, es, m, n, id);
      forall k: nat ensures !ReleasedAt(ss, es, k, m, id) {
        assert ReleasedAt(ss, es, k, m, id) ==> ReleasedAt(ss, es, k, n, id);
      }
    }
  }

  /** The job is out of the scheduler's hands and its stream is still open. */
  predicate Abandoned(s: State, id: JobId)
  {
    && Gone(s, id) && s.pc != Evicting(id) && !Executes(s, id)
    && (PhaseOf(FeedIn(s, id)).Fresh? || PhaseOf(FeedIn(s, id)).Warned?)
  }

  lemma {:induction false} AbandonedForGood(ss: seq<State>, es: seq<Step>, m: nat, n: nat, id: JobId)
    requires Run(ss, es) && m <= n <= |es| && Abandoned(ss[m], id)
    ensures Abandoned(ss[n], id)
  {
    if m < n {
      AbandonedForGood(ss, es, m, n - 1, id);
      GoneForGood(ss, es, m, n, id);
      RunStep(ss, es, n - 1);
      PcMoves(ss[n - 1], es[n - 1]);
      if !es[n - 1].CrashRestart? { FeedStays(ss[n - 1], es[n - 1], id); }
    }
  }

  /** The ways a job ends without being executed or cancelled: eviction raises, its log files cannot be
      opened, or a prune deletes it from the queue. */
  predicate GivesUp(s: State, e: Step, id: JobId)
  {
    || (s.pc == Evicting(id) && (e.EvictRaised? || (e.EvictReturned? && !e.opens)))
    || (e.Prune? && !e.dryRun && id in QueuedIds(s.rows)
        && id in Victims(s.rows, e.states, e.keepTag, e.cutoff))
  }

  /** A client streaming a job that ends in one of these ways is never released. */
  lemma NeverReleased(ss: seq<State>, es: seq<Step>, m: nat, n: nat, id: JobId)
    requires Run(ss, es) && m < n <= |es| && GivesUp(ss[m], es[m], id)
    ensures !StreamEnds(FeedIn(ss[n], id))
  {
    if es[m].Prune? { PrunedIsAbandoned(ss, es, m, id); } else { GivenUpIsAbandoned(ss, es, m, id); }
    AbandonedForGood(ss, es, m + 1, n, id);
    OpenIsEndFree(FeedIn(ss[n], id));
  }

  lemma PrunedIsAbandoned(ss: seq<State>, es: seq<Step>, m: nat, id: JobId)
    requires Run(ss, es) && m < |es| && GivesUp(ss[m], es[m], id) && es[m].Prune?
    ensures Abandoned(ss[m + 1], id) && id !in ss[m + 1].rows
  {
    RunStep(ss, es, m);
    RunFlows(ss, es, m);
    assert Flowing(ss[m], id) && RowSound(ss[m], id);
    FeedStays(ss[m], es[m], id);
  }

  lemma GivenUpIsAbandoned(ss: seq<State>, es: seq<Step>, m: nat, id: JobId)
    requires Run(ss, es) && m < |es| && ss[m].pc == Evicting(id)
    requires es[m].EvictRaised? || (es[m].EvictReturned? && !es[m].opens)
    ensures Abandoned(ss[m + 1], id) && IsTerminal(ss[m + 1], id) == (id in ss[m].rows)
  {
    RunSound(ss, es, m);
    RunSound(ss, es, m + 1);
    RunStep(ss, es, m);
    RunFlows(ss, es, m);
    assert Flowing(ss[m], id);
    if id in ss[m].rows { assert RowSound(ss[m], id); }
    if es[m].EvictReturned? && es[m].models != [] {
      OneMore([], EvictedEv(es[m].models));
      assert FeedIn(ss[m + 1], id) == [] + [EvictedEv(es[m].models)];
    }
  }
}
