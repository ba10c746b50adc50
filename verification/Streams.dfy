/** Log lines and events on their way from the child to the clients, over whole runs.

    A line goes from the pump to the index and to the mirror's queue, from there onto the bus, and from
    the bus to each subscriber.  Flowing says that nothing is lost, repeated or reordered on the way. */
module Streams {
  import opened Common
  import opened Jobs
  import opened Logs
  import opened Events
  import opened Machine
  import opened Invariants
  import opened Prune

  // ---- the shape of a feed -------------------------------------------------------------------------

  datatype Phase =
    | Fresh          // nothing published
    | Warned         // eviction reported
    | Live           // running announced, then log lines
    | Over           // terminal state announced
    | Shut           // and the stream closed
    | Dropped        // cancelled while queued
    | DroppedShut
    | Broken         // any other sequence of events

  function Advance(p: Phase, ev: Event): Phase
  {
    match (p, ev)
    case (Fresh, EvictedEv(_)) => Warned
    case (Fresh, RunningEv(_)) => Live
    case (Fresh, EndEv(state, _)) => if state.Cancelled? then Dropped else Broken
    case (Warned, RunningEv(_)) => Live
    case (Live, LogEv(_)) => Live
    case (Live, EndEv(state, code)) => if code.Some? && (state.Done? <==> code == Some(0)) then Over else Broken
    case (Over, Closed) => Shut
    case (Dropped, Closed) => DroppedShut
    case _ => Broken
  }

  function PhaseOf(f: Feed): Phase
  {
    if f == [] then Fresh else Advance(PhaseOf(f[..|f| - 1]), f[|f| - 1])
  }

  function LogsOf(f: Feed): seq<Line>
  {
    if f == [] then [] else
      LogsOf(f[..|f| - 1]) + if f[|f| - 1].LogEv? then [f[|f| - 1].line] else []
  }

  lemma OneMore(f: Feed, ev: Event)
    ensures PhaseOf(f + [ev]) == Advance(PhaseOf(f), ev)
    ensures LogsOf(f + [ev]) == if ev.LogEv? then LogsOf(f) + [ev.line] else LogsOf(f)
  {
    assert (f + [ev])[..|f|] == f;
  }

  lemma {:induction false} LogsOfAppend(f: Feed, g: Feed)
    ensures LogsOf(f + g) == LogsOf(f) + LogsOf(g)
  {
    if g == [] {
      assert f + g == f;
    } else {
      var h, ev := g[..|g| - 1], g[|g| - 1];
      var more := if ev.LogEv? then [ev.line] else [];
      LogsOfAppend(f, h);
      assert (f + g)[..|f + g| - 1] == f + h && (f + g)[|f + g| - 1] == ev;
      assert LogsOf(f + g) == (LogsOf(f) + LogsOf(h)) + more;
      assert LogsOf(g) == LogsOf(h) + more;
      assert (LogsOf(f) + LogsOf(h)) + more == LogsOf(f) + (LogsOf(h) + more);
    }
  }

  predicate EndFree(f: Feed) { forall i :: 0 <= i < |f| ==> !f[i].EndEv? && !f[i].Closed? }

  /** Before the end is announced there is no end marker in the feed. */
  lemma {:induction false} OpenIsEndFree(f: Feed)
    requires PhaseOf(f).Fresh? || PhaseOf(f).Warned? || PhaseOf(f).Live?
    ensures EndFree(f)
  {
    if f != [] { OpenIsEndFree(f[..|f| - 1]); }
  }

  /** A closed feed announces exactly one end, as its last event before the marker. */
  lemma ClosedShape(f: Feed)
    requires PhaseOf(f).Shut? || PhaseOf(f).DroppedShut?
    ensures |f| >= 2 && f[|f| - 2].EndEv? && f[|f| - 1].Closed? && EndFree(f[..|f| - 2])
  {
    ClosedLast(f);
    EndedShape(f[..|f| - 1]);
    assert f[..|f| - 1][..|f| - 2] == f[..|f| - 2];
  }

  /** The stream a client gets of a closed feed is everything but the marker. */
  lemma ClosedStreamed(f: Feed)
    requires PhaseOf(f).Shut? || PhaseOf(f).DroppedShut?
    ensures Streamed(f) == f[..|f| - 1] && LogsOf(Streamed(f)) == LogsOf(f)
  {
    ClosedLast(f);
    ClosedShape(f);
    forall i | 0 <= i < |f| - 2 ensures !f[i].EndEv? && !f[i].Closed? { assert f[i] == f[..|f| - 2][i]; }
    StreamedUpTo(f, |f| - 2);
  }

  lemma ClosedLast(f: Feed)
    requires PhaseOf(f).Shut? || PhaseOf(f).DroppedShut?
    ensures |f| >= 1 && f[|f| - 1].Closed? && (PhaseOf(f[..|f| - 1]).Over? || PhaseOf(f[..|f| - 1]).Dropped?)
    ensures LogsOf(f) == LogsOf(f[..|f| - 1])
  {
    LastClosed(PhaseOf(f[..|f| - 1]), f[|f| - 1]);
  }

  lemma LastClosed(p: Phase, ev: Event)
    requires Advance(p, ev).Shut? || Advance(p, ev).DroppedShut?
    ensures ev.Closed? && (p.Over? || p.Dropped?)
  {
  }

  lemma EndedShape(g: Feed)
    requires PhaseOf(g).Over? || PhaseOf(g).Dropped?
    ensures |g| >= 1 && g[|g| - 1].EndEv? && EndFree(g[..|g| - 1])
  {
    OpenIsEndFree(g[..|g| - 1]);
  }

  // ---- the invariant -------------------------------------------------------------------------------

  function FeedIn(s: State, id: JobId): Feed { FeedOf(s.feeds, id) }

  /** Lines in the mirror's queue. */
  function InFlight(s: State, id: JobId): seq<Line>
  {
    if s.pc.Executing? && s.pc.job == id && s.waiter.Some? then Lines(s.waiter.value) else []
  }

  predicate Executes(s: State, id: JobId) { s.pc.Executing? && s.pc.job == id }

  /** The job has not reached its log files yet. */
  predicate Untold(s: State, id: JobId)
  {
    id !in s.used || id in QueuedIds(s.rows) || s.pc == Evicting(id)
  }

  /** What is on the bus, then what the mirror still holds, then what came after the mirror stopped, is
      what is in the index. */
  ghost predicate Flowing(s: State, id: JobId)
  {
    var f := FeedIn(s, id);
    && PhaseOf(f) != Broken
    && (Untold(s, id) ==> f == [] && id !in s.disk && LostOf(s, id) == [])
    && (Executes(s, id) <==> PhaseOf(f) == Live)
    && PhaseOf(f) != Over && PhaseOf(f) != Dropped
    && (id in s.disk && (PhaseOf(f).Live? || PhaseOf(f).Shut?) ==>
          LogsOf(f) + InFlight(s, id) + LostOf(s, id) == s.disk[id].index)
    && (id in s.disk ==> Consistent(s.disk[id]))
  }

  predicate EofAt(w: seq<Item>, j: nat)
  {
    j < |w| && w[j].Eof? && forall i :: 0 <= i < |w| && i != j ==> w[i].Got?
  }

  predicate EofFree(w: seq<Item>) { forall i :: 0 <= i < |w| ==> w[i].Got? }

  /** The mirror's queue against the stage the run has reached. */
  ghost predicate Mirroring(s: State)
  {
    s.pc.Executing? ==>
      match s.pc.stage
      case Created => s.waiter.None? && LostOf(s, s.pc.job) == []
      case Listening => s.waiter == Some([]) && LostOf(s, s.pc.job) == []
      case Spawned => s.waiter.Some? && EofFree(s.waiter.value) && LostOf(s, s.pc.job) == []
      case Draining(_, _, orphan) =>
        && (s.waiter.Some? ==> LostOf(s, s.pc.job) == [] && exists j :: EofAt(s.waiter.value, j))
        && (!orphan ==> LostOf(s, s.pc.job) == [])
        && (!orphan && s.waiter.Some? ==> EofAt(s.waiter.value, |s.waiter.value| - 1))
  }

  ghost predicate Flows(s: State)
  {
    (forall id: JobId :: Flowing(s, id)) && Mirroring(s)
  }

  // ---- steps ---------------------------------------------------------------------------------------

  /** A step that leaves feeds, files and the scheduler alone, and makes no old id look new. */
  lemma FlowsFrame(s: State, t: State)
    requires Flows(s) && t.feeds == s.feeds && t.disk == s.disk && t.waiter == s.waiter && t.lost == s.lost
    requires t.pc == s.pc || (!s.pc.Executing? && !t.pc.Executing?)
    requires forall id :: Untold(t, id) ==> Untold(s, id)
    ensures Flows(t)
  {
    forall id: JobId ensures Flowing(t, id) { assert Flowing(s, id); }
  }

  lemma FlowsPrune(s: State, gone: set<JobId>)
    requires Sound(s) && Flows(s)
    ensures Flows(s.(rows := s.rows - gone, disk := s.disk - gone))
  {
    var t := s.(rows := s.rows - gone, disk := s.disk - gone);
    forall id: JobId ensures Flowing(t, id) { assert Flowing(s, id); }
  }

  lemma DroppedFeed()
    ensures var f := [EndEv(Cancelled, None), Event.Closed];
            PhaseOf(f) == DroppedShut && LogsOf(f) == []
  {
    var f := [EndEv(Cancelled, None), Event.Closed];
    var over := f[..1];
    assert over[..0] == [] && over[0] == EndEv(Cancelled, None);
    assert PhaseOf(over) == Advance(Fresh, over[0]) && LogsOf(over) == [];
    assert f[..|f| - 1] == over && f[|f| - 1] == Event.Closed;
  }

  lemma FlowsCancelled(s: State, t: State, id: JobId)
    requires Sound(s) && Flows(s) && id in QueuedIds(s.rows)
    requires t.disk == s.disk && t.waiter == s.waiter && t.lost == s.lost && t.pc == s.pc && t.used == s.used
    requires QueuedIds(t.rows) == QueuedIds(s.rows) - {id}
    requires t.feeds == Published(Published(s.feeds, id, EndEv(Cancelled, None)), id, Event.Closed)
    ensures Flows(t)
  {
    assert RowSound(s, id) && Flowing(s, id);
    DroppedFeed();
    assert FeedIn(t, id) == [EndEv(Cancelled, None), Event.Closed];
    forall k: JobId ensures Flowing(t, k) {
      assert Flowing(s, k);
      if k != id { assert Untold(t, k) ==> Untold(s, k); }
    }
  }

  /** A step that touches the feed, the files and the scheduling of one job only. */
  lemma FlowsOne(s: State, t: State, id: JobId)
    requires Flows(s) && Flowing(t, id) && Mirroring(t)
    requires t.feeds == s.feeds || t.feeds == s.feeds[id := FeedIn(t, id)]
    requires t.disk == s.disk || (id in t.disk && t.disk == s.disk[id := t.disk[id]])
    requires t.lost == s.lost || t.lost == s.lost[id := LostOf(t, id)]
    requires s.pc.Executing? ==> s.pc.job == id
    requires t.pc.Executing? ==> t.pc.job == id
    requires forall k :: k != id && Untold(t, k) ==> Untold(s, k)
    ensures Flows(t)
  {
    forall k: JobId ensures Flowing(t, k) { assert Flowing(s, k); }
  }

  /** Popping: the job is still untold. */
  lemma FlowsWake(s: State, now: Stamp)
    requires Sound(s) && Flows(s) && s.pc.Idle?
    ensures Flows(DoWake(s, now))
  {
    var t := DoWake(s, now);
    forall k: JobId ensures Untold(t, k) ==> Untold(s, k) { }
    FlowsFrame(s, t);
  }

  lemma FlowsGiveUp(s: State, now: Stamp)
    requires Sound(s) && Flows(s) && s.pc.Evicting?
    ensures Flows(GiveUp(s, s.pc.job, now))
  {
    var t := GiveUp(s, s.pc.job, now);
    forall k: JobId ensures Untold(t, k) ==> Untold(s, k) { if k in s.rows { assert RowSound(s, k); } }
    FlowsFrame(s, t);
  }

  /** The eviction's report goes out whether or not the log files can be opened. */
  lemma FlowsWarn(s: State, models: seq<string>)
    requires Sound(s) && Flows(s) && s.pc.Evicting? && models != []
    ensures Flows(s.(feeds := Published(s.feeds, s.pc.job, EvictedEv(models)), pc := Idle))
  {
    var id := s.pc.job;
    var t := s.(feeds := Published(s.feeds, id, EvictedEv(models)), pc := Idle);
    assert Flowing(s, id);
    OneMore([], EvictedEv(models));
    assert FeedIn(t, id) == [] + [EvictedEv(models)];
    if id in s.rows { assert RowSound(s, id); }
    FlowsOne(s, t, id);
  }

  lemma FlowsNotOpened(s: State, models: seq<string>, now: Stamp)
    requires Sound(s) && Flows(s) && s.pc.Evicting?
    ensures Flows(DoEvictReturned(s, s.pc.job, models, false, now))
  {
    if models == [] {
      FlowsGiveUp(s, now);
    } else {
      FlowsWarn(s, models);
      var m := s.(feeds := Published(s.feeds, s.pc.job, EvictedEv(models)), pc := Idle);
      var t := DoEvictReturned(s, s.pc.job, models, false, now);
      forall k: JobId ensures Untold(t, k) ==> Untold(m, k) { }
      FlowsFrame(m, t);
    }
  }

  /** What a job's feed is when it starts. */
  function FirstEvents(models: seq<string>, now: Stamp): Feed
  {
    (if models != [] then [EvictedEv(models)] else []) + [RunningEv(now)]
  }

  lemma FirstEventsLive(models: seq<string>, now: Stamp)
    ensures PhaseOf(FirstEvents(models, now)) == Live && LogsOf(FirstEvents(models, now)) == []
  {
    OneMore([], EvictedEv(models));
    OneMore([EvictedEv(models)], RunningEv(now));
    OneMore([], RunningEv(now));
    assert [] + [EvictedEv(models)] == [EvictedEv(models)];
    assert [] + [RunningEv(now)] == [RunningEv(now)];
  }

  lemma StartedFlows(s: State, t: State, id: JobId, f: Feed)
    requires Flows(s) && s.pc == Evicting(id) && t.pc == Executing(id, Created) && id in t.used
    requires t.feeds == s.feeds[id := f] && PhaseOf(f) == Live && LogsOf(f) == []
    requires t.disk == (if id in s.disk then s.disk else s.disk[id := EMPTY_DIR]) && t.lost == s.lost
    requires t.used == s.used && t.waiter == None
    requires id !in QueuedIds(t.rows) && forall k :: k != id && Untold(t, k) ==> Untold(s, k)
    ensures Flows(t)
  {
    assert Flowing(s, id);
    FlowsOne(s, t, id);
  }

  lemma StartedFeeds(feeds: map<JobId, Feed>, id: JobId, models: seq<string>, now: Stamp)
    requires FeedOf(feeds, id) == []
    ensures Published(if models != [] then Published(feeds, id, EvictedEv(models)) else feeds, id, RunningEv(now))
            == feeds[id := FirstEvents(models, now)]
  {
    assert [] + [RunningEv(now)] == [RunningEv(now)];
    if models != [] {
      var warned := Published(feeds, id, EvictedEv(models));
      assert FeedOf(warned, id) == [EvictedEv(models)];
      assert FirstEvents(models, now) == [EvictedEv(models)] + [RunningEv(now)];
      assert Published(warned, id, RunningEv(now)).Keys == feeds[id := FirstEvents(models, now)].Keys;
    }
  }

  lemma FlowsStarted(s: State, models: seq<string>, now: Stamp)
    requires Sound(s) && Flows(s) && s.pc.Evicting?
    ensures Flows(DoEvictReturned(s, s.pc.job, models, true, now))
  {
    var id := s.pc.job;
    var t := DoEvictReturned(s, id, models, true, now);
    assert Flowing(s, id);
    FirstEventsLive(models, now);
    if id in s.rows { assert RowSound(s, id); }
    StartedFeeds(s.feeds, id, models, now);
    StartedFlows(s, t, id, FirstEvents(models, now));
  }

  lemma AppendedMirroring(s: State, t: State, l: Line)
    requires Mirroring(s) && Enabled(s, Appended(l)) && t.pc == s.pc
    requires t.waiter == if s.waiter.Some? then Some(s.waiter.value + [Got(l)]) else None
    requires t.lost == if s.waiter.Some? then s.lost else s.lost[s.pc.job := LostOf(s, s.pc.job) + [l]]
    ensures Mirroring(t)
  {
    if s.waiter.Some? && s.pc.stage.Draining? {
      var j: nat :| EofAt(s.waiter.value, j);
      assert EofAt(t.waiter.value, j);
    }
  }

  lemma AppendedFlowing(s: State, t: State, l: Line)
    requires s.pc.Executing? && Flowing(s, s.pc.job) && t.pc == s.pc && t.feeds == s.feeds && t.used == s.used
    requires t.rows == s.rows && t.disk == Logged(s.disk, s.pc.job, l)
    requires s.waiter.Some? ==> t.waiter == Some(s.waiter.value + [Got(l)]) && t.lost == s.lost
    requires s.waiter.Some? ==> LostOf(s, s.pc.job) == []
    requires s.waiter.None? ==> t.waiter == None && t.lost == s.lost[s.pc.job := LostOf(s, s.pc.job) + [l]]
    ensures Flowing(t, s.pc.job)
  {
    AppendedAddsUp(s, t, LogsOf(FeedIn(s, s.pc.job)), l);
  }

  lemma AppendedAddsUp(s: State, t: State, f: seq<Line>, l: Line)
    requires s.pc.Executing? && t.pc == s.pc
    requires s.waiter.Some? ==> t.waiter == Some(s.waiter.value + [Got(l)]) && t.lost == s.lost
    requires s.waiter.Some? ==> LostOf(s, s.pc.job) == []
    requires s.waiter.None? ==> t.waiter == None && t.lost == s.lost[s.pc.job := LostOf(s, s.pc.job) + [l]]
    ensures var id := s.pc.job;
      f + InFlight(t, id) + LostOf(t, id) == (f + InFlight(s, id) + LostOf(s, id)) + [l]
  {
    var id := s.pc.job;
    OneMoreLine(f, InFlight(s, id), LostOf(s, id), l);
    if s.waiter.Some? {
      InFlightGrows(s.waiter.value, l);
    }
  }

  lemma OneMoreLine(a: seq<Line>, b: seq<Line>, c: seq<Line>, l: Line)
    ensures a + b + (c + [l]) == (a + b + c) + [l]
    ensures c == [] ==> a + (b + [l]) + c == (a + b + c) + [l]
  {
    assert a + (b + [l]) == (a + b) + [l];
  }

  lemma InFlightGrows(w: seq<Item>, l: Line)
    ensures Lines(w + [Got(l)]) == Lines(w) + [l]
  {
    LinesAppend(w, [Got(l)]);
    assert Lines([Got(l)]) == [l];
  }

  /** The pump's turn: the line reaches the index and the mirror's queue together. */
  lemma FlowsAppended(s: State, l: Line)
    requires Sound(s) && Flows(s) && Enabled(s, Appended(l))
    ensures Flows(DoAppended(s, s.pc.job, l))
  {
    assert Flowing(s, s.pc.job);
    var t := DoAppended(s, s.pc.job, l);
    AppendedMirroring(s, t, l);
    AppendedFlowing(s, t, l);
    FlowsOne(s, t, s.pc.job);
  }

  lemma FlowsRunEnded(s: State, how: RunEnd)
    requires Sound(s) && Flows(s) && Enabled(s, RunEnded(how))
    ensures Flows(DoRunEnded(s, s.pc.job, how))
  {
    var id := s.pc.job;
    var t := DoRunEnded(s, id, how);
    assert Flowing(s, id);
    var w := s.waiter.value;
    LinesAppend(w, [Eof]);
    assert EofAt(w + [Eof], |w|);
    FlowsOne(s, t, id);
  }

  lemma TookMirroring(s: State, t: State)
    requires Mirroring(s) && Enabled(s, MirrorTook) && t.pc == s.pc
    requires var w := s.waiter.value; if w[0].Got? then t.waiter == Some(w[1..]) && t.lost == s.lost
             else t.waiter == None && t.lost == s.lost[s.pc.job := LostOf(s, s.pc.job) + Lines(w[1..])]
    ensures Mirroring(t)
  {
    var w := s.waiter.value;
    if s.pc.stage.Draining? {
      var j: nat :| EofAt(w, j);
      if w[0].Got? {
        assert EofAt(w[1..], j - 1);
      } else if !s.pc.stage.orphan {
        assert w[1..] == [];
      }
    }
  }

  lemma TookFlowing(s: State, t: State)
    requires s.pc.Executing? && s.waiter.Some? && s.waiter.value != [] && Flowing(s, s.pc.job)
    requires t.pc == s.pc && t.disk == s.disk && t.rows == s.rows && t.used == s.used
    requires LostOf(s, s.pc.job) == []
    requires var w := s.waiter.value;
      if w[0].Got? then t.waiter == Some(w[1..]) && t.lost == s.lost
                        && t.feeds == Published(s.feeds, s.pc.job, LogEv(w[0].line))
      else t.waiter == None && t.lost == s.lost[s.pc.job := Lines(w[1..])] && t.feeds == s.feeds
    ensures Flowing(t, s.pc.job)
  {
    var id, w := s.pc.job, s.waiter.value;
    var f := LogsOf(FeedIn(s, id));
    if w[0].Got? {
      OneMore(FeedIn(s, id), LogEv(w[0].line));
      assert FeedIn(t, id) == FeedIn(s, id) + [LogEv(w[0].line)];
      LineMoves(f, w[0].line, Lines(w[1..]));
    } else {
      assert f + Lines(w[1..]) + [] == f + [] + Lines(w[1..]);
    }
  }

  lemma LineMoves(f: seq<Line>, l: Line, rest: seq<Line>)
    ensures f + ([l] + rest) + [] == (f + [l]) + rest + []
  {
  }

  /** The mirror's turn: the line moves from its queue to the bus; at the end marker it stops. */
  lemma FlowsTook(s: State, t: State)
    requires Flows(s) && Enabled(s, MirrorTook)
    requires t.pc == s.pc && t.disk == s.disk && t.rows == s.rows && t.used == s.used
    requires var w := s.waiter.value;
      if w[0].Got? then t.waiter == Some(w[1..]) && t.lost == s.lost
                        && t.feeds == Published(s.feeds, s.pc.job, LogEv(w[0].line))
      else t.waiter == None && t.lost == s.lost[s.pc.job := Lines(w[1..])] && t.feeds == s.feeds
    ensures Flows(t)
  {
    assert Flowing(s, s.pc.job);
    assert [] + Lines(s.waiter.value[1..]) == Lines(s.waiter.value[1..]);
    TookMirroring(s, t);
    TookFlowing(s, t);
    FlowsOne(s, t, s.pc.job);
  }

  lemma FlowsMirrorTook(s: State)
    requires Flows(s) && Enabled(s, MirrorTook)
    ensures Flows(DoMirrorTook(s, s.pc.job))
  {
    assert [] + Lines(s.waiter.value[1..]) == Lines(s.waiter.value[1..]);
    FlowsTook(s, DoMirrorTook(s, s.pc.job));
  }

  lemma FinalFeed(f: Feed, rc: int, clean: bool)
    requires PhaseOf(f) == Live && (!clean ==> rc == -1)
    ensures var ended := f + [EndEv(Verdict(rc, clean), Some(rc))];
            PhaseOf(ended + [Event.Closed]) == Shut && LogsOf(ended + [Event.Closed]) == LogsOf(f)
  {
    var ended := f + [EndEv(Verdict(rc, clean), Some(rc))];
    OneMore(f, EndEv(Verdict(rc, clean), Some(rc)));
    OneMore(ended, Event.Closed);
  }

  lemma FinishedFlowing(s: State, t: State, rc: int, clean: bool)
    requires Sound(s) && s.pc.Executing? && s.waiter.None? && Flowing(s, s.pc.job) && (!clean ==> rc == -1)
    requires t.pc == Idle && t.disk == s.disk && t.lost == s.lost && t.used == s.used && t.waiter == None
    requires s.pc.job !in QueuedIds(t.rows)
    requires t.feeds == Published(Published(s.feeds, s.pc.job, EndEv(Verdict(rc, clean), Some(rc))),
                                  s.pc.job, Event.Closed)
    ensures Flowing(t, s.pc.job)
  {
    var id := s.pc.job;
    FinalFeed(FeedIn(s, id), rc, clean);
    assert FeedIn(t, id) == FeedIn(s, id) + [EndEv(Verdict(rc, clean), Some(rc))] + [Event.Closed];
  }

  lemma FlowsOver(s: State, t: State, rc: int, clean: bool)
    requires Sound(s) && Flows(s) && s.pc.Executing? && s.waiter.None? && (!clean ==> rc == -1)
    requires t.pc == Idle && t.disk == s.disk && t.lost == s.lost && t.used == s.used && t.waiter == None
    requires s.pc.job !in QueuedIds(t.rows) && QueuedIds(t.rows) <= QueuedIds(s.rows)
    requires t.rows.Keys == s.rows.Keys
    requires t.feeds == Published(Published(s.feeds, s.pc.job, EndEv(Verdict(rc, clean), Some(rc))),
                                  s.pc.job, Event.Closed)
    ensures Flows(t)
  {
    assert Flowing(s, s.pc.job);
    FinishedFlowing(s, t, rc, clean);
    FlowsOne(s, t, s.pc.job);
  }

  lemma FlowsFinished(s: State, now: Stamp)
    requires Sound(s) && Flows(s) && Enabled(s, Finished(now))
    ensures Flows(DoFinished(s, s.pc.job, s.pc.stage.rc, s.pc.stage.clean, now))
  {
    var t := DoFinished(s, s.pc.job, s.pc.stage.rc, s.pc.stage.clean, now);
    if s.pc.job in s.rows { assert RowSound(s, s.pc.job); }
    FlowsOver(s, t, s.pc.stage.rc, s.pc.stage.clean);
  }

  lemma FlowsCrash(s: State, now: Stamp)
    requires Sound(s) && Flows(s)
    ensures Flows(DoCrashRestart(s, now))
  {
    var t := DoCrashRestart(s, now);
    forall k: JobId ensures Flowing(t, k) { assert Flowing(s, k); }
  }

  lemma FlowsEnqueue(s: State, id: JobId, j: Row)
    requires Sound(s) && Flows(s) && id !in s.used
    ensures Flows(Enqueue(s, id, j))
  {
    FlowsFrame(s, Enqueue(s, id, j));
  }

  lemma FlowsBump(s: State, id: JobId)
    requires Flows(s)
    ensures Flows(DoBump(s, id))
  {
    var t := DoBump(s, id);
    forall k: JobId ensures Untold(t, k) ==> Untold(s, k) { }
    FlowsFrame(s, t);
  }

  lemma FlowsCancel(s: State, task: TaskId, id: JobId, signal: Signal, now: Stamp)
    requires Sound(s) && Flows(s)
    ensures Flows(DoCancel(s, task, id, signal, now))
  {
    var t := DoCancel(s, task, id, signal, now);
    if id in QueuedIds(s.rows) {
      assert QueuedIds(t.rows) == QueuedIds(s.rows) - {id};
      FlowsCancelled(s, t, id);
    } else {
      FlowsFrame(s, t);
    }
  }

  lemma FlowsPid(s: State, rows: Table)
    requires Flows(s) && s.pc.Executing? && QueuedIds(rows) <= QueuedIds(s.rows)
    ensures Flows(s.(rows := rows))
  {
    FlowsFrame(s, s.(rows := rows));
  }

  lemma FlowsStage(s: State, t: State)
    requires Flows(s) && s.pc.Executing? && t.rows == s.rows && t.used == s.used
    requires t.feeds == s.feeds && t.disk == s.disk && t.lost == s.lost
    requires (s.pc.stage.Created? && t.waiter == Some([]) && t.pc == Executing(s.pc.job, Listening))
             || (s.pc.stage.Listening? && t.waiter == s.waiter && t.pc == Executing(s.pc.job, Spawned))
    ensures Flows(t)
  {
    assert Flowing(s, s.pc.job);
    FlowsOne(s, t, s.pc.job);
  }

  lemma FlowsRequest(s: State, e: Step)
    requires Sound(s) && Flows(s) && Enabled(s, e)
    requires e.Submit? || e.Retry? || e.Bump? || e.Cancel? || e.Doctor? || e.Prune?
    ensures Flows(Next(s, e))
  {
    match e
    case Submit(id, work, priority, next, parent, now) =>
      FlowsEnqueue(s, id, NewRow(work, if next then FrontPriority(s.rows, None) else priority, parent, now));
    case Retry(id, original, force, now) =>
      if Retryable(s, original, force) {
        FlowsEnqueue(s, id, NewRow(s.rows[original].work, s.rows[original].priority, Some(original), now));
      }
    case Bump(id) => FlowsBump(s, id);
    case Cancel(task, id, signal, now) => FlowsCancel(s, task, id, signal, now);
    case Doctor(fix, ids, minAge, alive, now) =>
      SoundDoctor(s, fix, ids, minAge, alive, now);
      FlowsFrame(s, DoDoctor(s, fix, ids, minAge, alive, now));
    case Prune(states, keepTag, cutoff, dryRun) =>
      if !dryRun { FlowsPrune(s, Victims(s.rows, states, keepTag, cutoff)); }
  }

  lemma FlowsLease(s: State, e: Step)
    requires Flows(s) && Enabled(s, e)
    requires e.CancelPoll? || e.LeaseAsk? || e.LeasePoll? || e.LeaseGrant? || e.LeaseEvictRaised? || e.Release?
             || e.PollRelease?
    ensures Flows(Next(s, e))
  {
    LeaseKeepsLogs(s, e);
    FlowsFrame(s, Next(s, e));
  }

  lemma LeaseKeepsLogs(s: State, e: Step)
    requires Enabled(s, e)
    requires e.CancelPoll? || e.LeaseAsk? || e.LeasePoll? || e.LeaseGrant? || e.LeaseEvictRaised? || e.Release?
             || e.PollRelease?
    ensures var t := Next(s, e); SameLogs(s, t) && t.rows == s.rows
    ensures Next(s, e).pc == s.pc || (!s.pc.Executing? && Next(s, e).pc.Idle?)
  {
  }

  lemma FlowsScheduling(s: State, e: Step)
    requires Sound(s) && Flows(s) && Enabled(s, e)
    requires e.Wake? || e.EvictReturned? || e.EvictRaised? || e.Finished? || e.CrashRestart?
    ensures Flows(Next(s, e))
  {
    match e
    case Wake(now) => FlowsWake(s, now);
    case EvictReturned(models, opens, now) =>
      if opens { FlowsStarted(s, models, now); } else { FlowsNotOpened(s, models, now); }
    case EvictRaised(now) => FlowsGiveUp(s, now);
    case Finished(now) => FlowsFinished(s, now);
    case CrashRestart(now) => FlowsCrash(s, now);
  }

  lemma FlowsLogging(s: State, e: Step)
    requires Sound(s) && Flows(s) && Enabled(s, e)
    requires e.MirrorStarted? || e.ChildSpawned? || e.PidSeen? || e.Appended? || e.RunEnded? || e.MirrorTook?
    ensures Flows(Next(s, e))
  {
    match e
    case Appended(line) => FlowsAppended(s, line);
    case RunEnded(how) => FlowsRunEnded(s, how);
    case MirrorTook => FlowsMirrorTook(s);
    case _ => FlowsStarting(s, e);
  }

  lemma FlowsStarting(s: State, e: Step)
    requires Sound(s) && Flows(s) && Enabled(s, e)
    requires e.MirrorStarted? || e.ChildSpawned? || e.PidSeen?
    ensures Flows(Next(s, e))
  {
    match e
    case MirrorStarted => FlowsStage(s, s.(waiter := Some([]), pc := Executing(s.pc.job, Listening)));
    case ChildSpawned => FlowsStage(s, s.(pc := Executing(s.pc.job, Spawned)));
    case PidSeen(pid) => FlowsPid(s, Updated(s.rows, s.pc.job, Running, Some(pid), None, None, None));
  }

  /** In every state of every run, for every job: what was published, what the mirror still holds and
      what came too late for it add up to the index, in order. */
  lemma {:induction false} RunFlows(ss: seq<State>, es: seq<Step>, n: nat)
    requires Run(ss, es) && n <= |es|
    ensures Flows(ss[n])
  {
    if n == 0 {
      forall id: JobId ensures Flowing(ss[0], id) { }
    } else {
      RunFlows(ss, es, n - 1);
      RunStep(ss, es, n - 1);
      StepFlows(ss[n - 1], es[n - 1]);
    }
  }

  lemma StepFlows(s: State, e: Step)
    requires Sound(s) && Flows(s) && Enabled(s, e)
    ensures Flows(Next(s, e))
  {
    if e.Submit? || e.Retry? || e.Bump? || e.Cancel? || e.Doctor? || e.Prune? {
      FlowsRequest(s, e);
    } else if e.CancelPoll? || e.LeaseAsk? || e.LeasePoll? || e.LeaseGrant? || e.LeaseEvictRaised? || e.Release?
              || e.PollRelease? {
      FlowsLease(s, e);
    } else if e.Wake? || e.EvictReturned? || e.EvictRaised? || e.Finished? || e.CrashRestart? {
      FlowsScheduling(s, e);
    } else {
      FlowsLogging(s, e);
    }
  }

  // ---- who publishes -------------------------------------------------------------------------------

  /** The steps that publish something about a job. */
  predicate Publishes(s: State, e: Step, id: JobId)
  {
    || (e.Cancel? && e.id == id && id in QueuedIds(s.rows))
    || (Busy(s) && s.pc.job == id && (e.EvictReturned? || e.MirrorTook? || e.Finished?))
  }

  lemma FeedStays(s: State, e: Step, id: JobId)
    requires Enabled(s, e) && !Publishes(s, e, id) && !e.CrashRestart?
    ensures FeedIn(Next(s, e), id) == FeedIn(s, id)
  {
    if ByHandler(e) { HandlersKeepFeed(s, e, id); } else { SchedulerKeepsFeed(s, e, id); }
  }

  lemma HandlersKeepFeed(s: State, e: Step, id: JobId)
    requires Enabled(s, e) && !Publishes(s, e, id) && ByHandler(e)
    ensures FeedIn(Next(s, e), id) == FeedIn(s, id)
  {
  }

  lemma SchedulerKeepsFeed(s: State, e: Step, id: JobId)
    requires Enabled(s, e) && !Publishes(s, e, id) && !ByHandler(e) && !e.CrashRestart?
    ensures FeedIn(Next(s, e), id) == FeedIn(s, id)
  {
  }
}
