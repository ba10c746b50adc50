/** A client beside the daemon: what is on its connection at the end of any run, whenever its own task
    takes its turns. */
module Clients {
  import opened Common
  import opened Logs
  import opened Events
  import opened Machine
  import opened Invariants
  import opened Streams
  import opened Losses
  import opened Delivery
  import opened Daemon

  /** Once the end is in what a client has seen, more events change nothing. */
  lemma {:induction false} EndedStays(f: Feed, g: Feed)
    requires f <= g && StreamEnds(f)
    ensures StreamEnds(g) && Streamed(g) == Streamed(f)
  {
    var i :| 0 <= i < |f| && (f[i].EndEv? || f[i].Closed?);
    assert g[i] == f[i] && g[0] == f[0];
    if !f[0].EndEv? && !f[0].Closed? {
      assert f[1..][i - 1] == f[i];
      EndedStays(f[1..], g[1..]);
    }
  }

  lemma TailGrows(f: Feed, g: Feed, base: nat)
    requires f <= g && base <= |f|
    ensures f[base..] <= g[base..]
  {
  }

  /** The client holds the subscription, has read what it has sent, and is not done. */
  ghost predicate Listening(s: Server, h: Handle, id: JobId, base: nat, sent: Feed)
    reads s, s.bus
  {
    s.bus.Sending(h, sent) && s.bus.subs[h].job == id && s.bus.since[h] == base
  }

  /** The client is done: it had seen this much of the feed, with the end in it. */
  ghost predicate Finished(f: Feed, base: nat, seen: Feed, sent: Feed)
  {
    base <= |f| && seen <= f[base..] && StreamEnds(seen) && sent == Streamed(seen)
  }

  /** The client's task takes its turn: the streaming loop until it must wait. */
  method ClientTurn(s: Server, h: Handle, ghost id: JobId, ghost base: nat, sent: Feed)
    returns (sent': Feed, done: bool)
    requires s.Valid() && Listening(s, h, id, base, sent)
    modifies s.bus
    ensures s.Valid() && s.Abs() == old(s.Abs()) && base <= |FeedIn(s.Abs(), id)|
    ensures sent' == Streamed(FeedIn(s.Abs(), id)[base..]) && done == StreamEnds(FeedIn(s.Abs(), id)[base..])
    ensures !done ==> Listening(s, h, id, base, sent')
  {
    sent', done := s.bus.StreamUntilTerminal(h, sent);
  }

  /** The daemon takes a step of its own or for another client; this client's subscription stays. */
  method DaemonTurn(s: Server, e: Step, h: Handle, ghost id: JobId, ghost base: nat, ghost sent: Feed)
    requires s.Valid() && Sound(s.Abs()) && Enabled(s.Abs(), e) && !e.CrashRestart?
    requires Listening(s, h, id, base, sent)
    modifies s, s.jobs, s.queue, s.bus, s.logs
    ensures s.Valid() && s.Abs() == Next(old(s.Abs()), e) && Listening(s, h, id, base, sent)
  {
    var t := Perform(s, e);
    assert s.bus.InStep(h);
  }

  /** From state m of a run to state n without a crash, beside a client that has just subscribed: the
      client's turns may come after any step, or not.  In the end it has been sent exactly the streamed part
      of the feed since it subscribed, and its loop has returned exactly if the end is in it. */
  method Accompany(s: Server, script: seq<Step>, ghost ss: seq<State>, m: nat, n: nat, id: JobId, h: Handle)
    returns (sent: Feed, done: bool)
    requires Run(ss, script) && m <= n <= |script| && NoCrash(script, m, n)
    requires s.Valid() && s.Abs() == ss[m] && Listening(s, h, id, |FeedIn(ss[m], id)|, [])
    modifies s, s.jobs, s.queue, s.bus, s.logs
    ensures s.Valid() && s.Abs() == ss[n] && FeedIn(ss[m], id) <= FeedIn(ss[n], id)
    ensures sent == Streamed(FeedIn(ss[n], id)[|FeedIn(ss[m], id)|..])
    ensures done == StreamEnds(FeedIn(ss[n], id)[|FeedIn(ss[m], id)|..])
  {
    ghost var base, seen: Feed := |FeedIn(ss[m], id)|, [];
    sent, done := [], false;
    for i := m to n
      invariant s.Valid() && s.Abs() == ss[i]
      invariant !done ==> Listening(s, h, id, base, sent)
      invariant done ==> Finished(FeedIn(ss[i], id), base, seen, sent)
    {
      RunStep(ss, script, i);
      if done {
        var t := Perform(s, script[i]);
        FeedsGrow(ss, script, i, i + 1, id);
        TailGrows(FeedIn(ss[i], id), FeedIn(ss[i + 1], id), base);
      } else {
        DaemonTurn(s, script[i], h, id, base, sent);
        if * {
          sent, done := ClientTurn(s, h, id, base, sent);
          seen := FeedIn(ss[i + 1], id)[base..];
        }
      }
    }
    FeedsGrow(ss, script, m, n, id);
    if done {
      EndedStays(seen, FeedIn(ss[n], id)[base..]);
    } else {
      sent, done := ClientTurn(s, h, id, base, sent);
    }
  }

  /** The Submit step, by the client that stays: it listens from the first event on. */
  method SubmitAndListen(s: Server, e: Step, ghost ss: seq<State>, ghost script: seq<Step>, ghost m: nat,
                         seen: Stamp) returns (h: Handle)
    requires Run(ss, script) && m < |script| && script[m] == e && e.Submit?
    requires s.Valid() && s.Abs() == ss[m]
    modifies s, s.jobs, s.queue, s.bus, s.logs
    ensures s.Valid() && s.Abs() == ss[m + 1]
    ensures FeedIn(ss[m + 1], e.id) == [] && Listening(s, h, e.id, 0, [])
  {
    RunStep(ss, script, m);
    FreshId(s.Abs(), e.id);
    SubmittedFromTheStart(ss, script, m);
    RunFlows(ss, script, m);
    assert Flowing(ss[m], e.id);
    var place, eta;
    place, eta, h := s.HandleSubmit(e.id, e.work, e.priority, e.next, e.parent, e.now, seen);
    assert s.bus.InStep(h);
    assert s.bus.taken[h] == [];
  }

  /** A client submits a job at step m of a run and stays.  If the job's stream is closed by step n, the
      client has been sent every event up to the terminal one, which is the last; the lines among them are
      all that `read_all` returns, in order, exactly when none was written after the run was over. */
  method SubmitAndStay(s: Server, script: seq<Step>, ghost ss: seq<State>, m: nat, n: nat, seen: Stamp)
    returns (sent: Feed, done: bool)
    requires Run(ss, script) && m < n <= |script| && script[m].Submit? && NoCrash(script, m, n)
    requires s.Valid() && s.Abs() == ss[m]
    modifies s, s.jobs, s.queue, s.bus, s.logs
    ensures s.Valid() && s.Abs() == ss[n]
    ensures sent == Streamed(FeedIn(ss[n], script[m].id)) && done == StreamEnds(FeedIn(ss[n], script[m].id))
    ensures PhaseOf(FeedIn(ss[n], script[m].id)) == Shut ==>
      done && Everything(ss, script, n, script[m].id, sent, Index(s.logs.disk, script[m].id))
  {
    var id := script[m].id;
    var h := SubmitAndListen(s, script[m], ss, script, m, seen);
    sent, done := Accompany(s, script, ss, m + 1, n, id, h);
    assert FeedIn(ss[n], id)[0..] == FeedIn(ss[n], id);
    if PhaseOf(FeedIn(ss[n], id)) == Shut { EverythingIsSent(ss, script, n, id); }
  }

  /** One terminal event, at the end; before it all lines of the log, unless one came late. */
  ghost predicate Everything(ss: seq<State>, es: seq<Step>, n: nat, id: JobId, sent: Feed, log: seq<Line>)
    requires n <= |es| && |ss| == |es| + 1
  {
    && sent != [] && sent[|sent| - 1].EndEv? && EndFree(sent[..|sent| - 1])
    && (id in ss[n].disk ==> (LogsOf(sent) == log <==> forall k: nat :: !LateAt(ss, es, k, n, id)))
  }

  lemma EverythingIsSent(ss: seq<State>, es: seq<Step>, n: nat, id: JobId)
    requires Run(ss, es) && n <= |es| && PhaseOf(FeedIn(ss[n], id)) == Shut
    ensures StreamEnds(FeedIn(ss[n], id))
    ensures Everything(ss, es, n, id, Streamed(FeedIn(ss[n], id)), Index(ss[n].disk, id))
  {
    SubmitterGetsEverything(ss, es, n, id);
    LastOfStream(FeedIn(ss[n], id));
  }

  lemma LastOfStream(f: Feed)
    requires |f| >= 2 && Streamed(f) == f[..|f| - 1] && f[|f| - 2].EndEv? && EndFree(f[..|f| - 2])
    ensures var sent := Streamed(f); sent != [] && sent[|sent| - 1].EndEv? && EndFree(sent[..|sent| - 1])
  {
    assert f[..|f| - 1][..|f| - 2] == f[..|f| - 2];
  }

  /** A client attaches at state m, while job `id` runs, and follows it until its stream is closed.  The
      history is the end of the log as it was at m: all of it from the start, `tail` lines of it from the tail,
      none otherwise.  With no line written after the run was over, history and live part are then the whole
      rest of the log, and they overlap in exactly what the mirror had still to take at m. */
  method AttachAndFollow(s: Server, script: seq<Step>, ghost ss: seq<State>, m: nat, n: nat, id: JobId,
                         from: From, tail: int)
    returns (history: seq<Line>, sent: Feed, done: bool)
    requires Run(ss, script) && m <= n <= |script| && NoCrash(script, m, n)
    requires s.Valid() && s.Abs() == ss[m] && Executes(ss[m], id)
    modifies s, s.jobs, s.queue, s.bus, s.logs
    ensures s.Valid() && s.Abs() == ss[n] && Shown(Index(ss[m].disk, id), from, tail, history)
    ensures PhaseOf(FeedIn(ss[n], id)) == Shut ==> done && StreamEnds(sent)
    ensures PhaseOf(FeedIn(ss[n], id)) == Shut && id in ss[n].disk
            && (forall k: nat :: !LateAt(ss, script, k, n, id)) ==>
      Completes(Index(s.logs.disk, id), Index(ss[m].disk, id), history, InFlight(ss[m], id), LogsOf(sent))
  {
    var h;
    history, h := AttachAndListen(s, id, from, tail);
    sent, done := Accompany(s, script, ss, m, n, id, h);
    if PhaseOf(FeedIn(ss[n], id)) == Shut {
      FollowedToTheEnd(ss, script, m, n, id);
      FollowerCompletes(ss, script, m, n, id, from, tail, history);
    }
  }

  lemma FollowerCompletes(ss: seq<State>, es: seq<Step>, m: nat, n: nat, id: JobId, from: From, tail: int,
                          history: seq<Line>)
    requires Run(ss, es) && m <= n <= |es| && NoCrash(es, m, n) && Executes(ss[m], id)
    requires PhaseOf(FeedIn(ss[n], id)) == Shut && Shown(Index(ss[m].disk, id), from, tail, history)
    ensures FeedIn(ss[m], id) <= FeedIn(ss[n], id)
    ensures id in ss[n].disk && (forall k: nat :: !LateAt(ss, es, k, n, id)) ==>
      Completes(Index(ss[n].disk, id), Index(ss[m].disk, id), history, InFlight(ss[m], id),
                LogsOf(FeedIn(ss[n], id)[|FeedIn(ss[m], id)|..]))
  {
    FeedsGrow(ss, es, m, n, id);
    if id in ss[n].disk {
      AttachMissesNothing(ss, es, m, n, id);
      ShownIsEnd(Index(ss[m].disk, id), from, tail, history);
    }
  }

  /** After the lines of the old log that were not asked for, history and live part are the whole log; the
      live part repeats the lines that were waiting. */
  predicate Completes(whole: seq<Line>, log: seq<Line>, history: seq<Line>, waiting: seq<Line>, live: seq<Line>)
  {
    && |history| <= |log| && waiting <= live
    && whole == log[..|log| - |history|] + history + live[|waiting|..]
  }

  method AttachAndListen(s: Server, id: JobId, from: From, tail: int) returns (history: seq<Line>, h: Handle)
    requires s.Valid()
    modifies s.bus
    ensures s.Valid() && s.Abs() == old(s.Abs()) && Shown(Index(s.logs.disk, id), from, tail, history)
    ensures Listening(s, h, id, |FeedIn(s.Abs(), id)|, [])
  {
    var sub;
    history, sub := s.HandleAttach(id, from, tail, true);
    h := sub.value;
    assert s.bus.InStep(h);
    assert s.bus.taken[h] == [];
  }

  /** What a follower is sent is the closed feed from where it came in, but for the marker. */
  lemma FollowedToTheEnd(ss: seq<State>, es: seq<Step>, m: nat, n: nat, id: JobId)
    requires Run(ss, es) && m <= n <= |es| && NoCrash(es, m, n) && Executes(ss[m], id)
    requires PhaseOf(FeedIn(ss[n], id)) == Shut
    ensures FeedIn(ss[m], id) <= FeedIn(ss[n], id)
    ensures var live := FeedIn(ss[n], id)[|FeedIn(ss[m], id)|..];
      StreamEnds(live) && StreamEnds(Streamed(live)) && LogsOf(Streamed(live)) == LogsOf(live)
  {
    FeedsGrow(ss, es, m, n, id);
    RunFlows(ss, es, m);
    assert Flowing(ss[m], id);
    var f, g := FeedIn(ss[m], id), FeedIn(ss[n], id);
    OpenIsEndFree(f);
    ClosedShape(g);
    ClosedTail(g, |f|);
  }

  lemma ClosedTail(g: Feed, base: nat)
    requires |g| >= 2 && g[|g| - 2].EndEv? && g[|g| - 1].Closed? && EndFree(g[..|g| - 2])
    requires base <= |g| && EndFree(g[..base])
    ensures var live := g[base..];
      StreamEnds(live) && StreamEnds(Streamed(live)) && LogsOf(Streamed(live)) == LogsOf(live)
  {
    assert base <= |g| - 2 by { assert forall i :: 0 <= i < base ==> g[..base][i] == g[i]; }
    var live := g[base..];
    var n := |live| - 2;
    forall i | 0 <= i < n ensures !live[i].EndEv? && !live[i].Closed? {
      assert live[i] == g[..|g| - 2][base + i];
    }
    assert live[n].EndEv? && live[n + 1].Closed?;
    StreamedUpTo(live, n);
    assert live[..n + 1][n].EndEv?;
    assert live[..|live| - 1] == live[..n + 1];
  }
}
