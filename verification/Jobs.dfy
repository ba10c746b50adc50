/** The durable job table of state.py: rows, queries and the class JobRepo that updates them.

    SQLite is a map from id to row with autocommit writes.  A query with
    `ORDER BY priority DESC, submitted_at ASC` is the sequence Order below.  SQL leaves rows with equal
    keys unordered; here such ties are broken by id, and no run of the daemon has any (module Machine
    stamps submissions with a strictly increasing clock). */
module Jobs {
  import opened Common

  datatype JobState = Queued | Starting | Running | Done | Failed | Cancelled {
    predicate Active() { Starting? || Running? }
    predicate Terminal() { Done? || Failed? || Cancelled? }
  }

  /** A word where a request names a state: nobody checks that it is one. */
  datatype StateName = Known(state: JobState) | Unknown(word: string)

  /** What the user asked to run; a retry copies it unchanged. */
  datatype Work = Work(cmd: seq<string>, cwd: string, env: map<string, string>, tag: string,
                       description: Option<string>)

  datatype Row = Row(work: Work, priority: int, state: JobState, pid: Option<int>, exitCode: Option<int>,
                     submitted: Stamp, started: Option<Stamp>, finished: Option<Stamp>,
                     parent: Option<JobId>)

  type Table = map<JobId, Row>

  // ---- ORDER BY priority DESC, submitted_at ASC ----------------------------------------------------

  predicate Before(t: Table, a: JobId, b: JobId)
    requires a in t && b in t
  {
    || t[a].priority > t[b].priority
    || (t[a].priority == t[b].priority && t[a].submitted < t[b].submitted)
    || (t[a].priority == t[b].priority && t[a].submitted == t[b].submitted && a < b)
  }

  predicate IsLeast(t: Table, want: set<JobId>, m: JobId)
    requires want <= t.Keys
  {
    m in want && forall k :: k in want && k != m ==> Before(t, m, k)
  }

  lemma {:induction false} LeastExists(t: Table, want: set<JobId>)
    requires want != {} && want <= t.Keys
    ensures exists m :: IsLeast(t, want, m)
  {
    var x :| x in want;
    var others := want - {x};
    assert forall k :: k in want && k != x ==> k in others;
    if others == {} {
      assert IsLeast(t, want, x);
    } else {
      LeastExists(t, others);
      var m :| IsLeast(t, others, m);
      var least := if Before(t, x, m) then x else m;
      forall k | k in want && k != least ensures Before(t, least, k) {
        if k != x {
          assert k in others;
        }
      }
      assert IsLeast(t, want, least);
    }
  }

  /** The first row of `want`: the row of a query with `LIMIT 1`. */
  function Least(t: Table, want: set<JobId>): (m: JobId)
    requires want != {} && want <= t.Keys
    ensures IsLeast(t, want, m)
  {
    LeastExists(t, want);
    var m :| IsLeast(t, want, m);
    m
  }

  ghost predicate Sorted(t: Table, want: set<JobId>, q: seq<JobId>)
    requires want <= t.Keys
  {
    && (forall k :: k in q <==> k in want)
    && (forall i, j :: 0 <= i < j < |q| ==> q[i] in t && q[j] in t && Before(t, q[i], q[j]))
  }

  function Order(t: Table, want: set<JobId>): (q: seq<JobId>)
    requires want <= t.Keys
    ensures Sorted(t, want, q)
  {
    if want == {} then [] else
      var m := Least(t, want);
      var rest := Order(t, want - {m});
      assert forall j :: 0 <= j < |rest| ==> rest[j] in rest;
      [m] + rest
  }

  lemma HeadIsLeast(t: Table, want: set<JobId>, q: seq<JobId>)
    requires want <= t.Keys && Sorted(t, want, q) && q != []
    ensures q[0] in want && q[0] == Least(t, want)
  {
    assert q[0] in q;
    var m := Least(t, want);
    assert m in q;
    var i :| 0 <= i < |q| && q[i] == m;
    assert i > 0 ==> Before(t, q[0], m);
  }

  lemma TailIsSorted(t: Table, want: set<JobId>, q: seq<JobId>)
    requires want <= t.Keys && Sorted(t, want, q) && q != []
    ensures Sorted(t, want - {q[0]}, q[1..])
  {
    forall k ensures k in q[1..] <==> k in want - {q[0]} {
      if k in q[1..] {
        var j :| 1 <= j < |q| && q[j] == k;
        assert Before(t, q[0], q[j]);
      }
    }
  }

  /** A sorted listing without gaps is unique, so a list is the result of a query exactly when it is
      Sorted.  The refinement proofs of module PriorityQueue all end here. */
  lemma {:induction false} OrderIsUnique(t: Table, want: set<JobId>, q: seq<JobId>)
    requires want <= t.Keys && Sorted(t, want, q)
    ensures q == Order(t, want)
  {
    if q == [] {
      assert want == {};
    } else {
      HeadIsLeast(t, want, q);
      TailIsSorted(t, want, q);
      OrderIsUnique(t, want - {q[0]}, q[1..]);
    }
  }

  /** The rows of `want` that sort before `id`. */
  function Ahead(t: Table, want: set<JobId>, id: JobId): (a: set<JobId>)
    requires want <= t.Keys && id in t
  {
    set k | k in want && Before(t, k, id)
  }

  lemma AheadSplit(t: Table, want: set<JobId>, id: JobId, m: JobId)
    requires want <= t.Keys && id in want && IsLeast(t, want, m) && m != id
    ensures |Ahead(t, want, id)| == |Ahead(t, want - {m}, id)| + 1
  {
    assert Ahead(t, want, id) == {m} + Ahead(t, want - {m}, id);
  }

  /** A row's index in the listing is the number of rows that sort before it. */
  lemma {:induction false} IndexIsRank(t: Table, want: set<JobId>, id: JobId)
    requires want <= t.Keys && id in want
    ensures |Ahead(t, want, id)| < |Order(t, want)|
    ensures Order(t, want)[|Ahead(t, want, id)|] == id
  {
    var m := Least(t, want);
    var rest := Order(t, want - {m});
    assert Order(t, want) == [m] + rest;
    if m == id {
      assert Ahead(t, want, id) == {};
    } else {
      IndexIsRank(t, want - {m}, id);
      AheadSplit(t, want, id, m);
    }
  }

  lemma RankOfIndex(t: Table, want: set<JobId>, i: nat)
    requires want <= t.Keys && i < |Order(t, want)|
    ensures Order(t, want)[i] in want && |Ahead(t, want, Order(t, want)[i])| == i
  {
    var q := Order(t, want);
    assert q[i] in q;
    IndexIsRank(t, want, q[i]);
  }

  lemma {:induction false} OrderHasAll(t: Table, want: set<JobId>)
    requires want <= t.Keys
    ensures |Order(t, want)| == |want|
  {
    if want != {} { OrderHasAll(t, want - {Least(t, want)}); }
  }

  /** No row is listed twice. */
  lemma OnceInOrder(t: Table, want: set<JobId>, i: nat)
    requires want <= t.Keys && i < |Order(t, want)|
    ensures Order(t, want)[i] in want && Order(t, want)[i] !in Order(t, want)[..i]
  {
    var q := Order(t, want);
    assert q[i] in q;
    forall j | 0 <= j < i ensures q[j] != q[i] { assert Before(t, q[j], q[i]); }
  }

  /** The listing depends only on the rows asked for, and on nothing but their keys. */
  lemma {:induction false} OrderFrame(t: Table, u: Table, want: set<JobId>)
    requires want <= t.Keys && want <= u.Keys
    requires forall k :: k in want ==> t[k].priority == u[k].priority && t[k].submitted == u[k].submitted
    ensures Order(t, want) == Order(u, want)
  {
    forall i, j | 0 <= i < j < |Order(t, want)|
      ensures Order(t, want)[i] in u && Order(t, want)[j] in u
      ensures Before(u, Order(t, want)[i], Order(t, want)[j])
    {
      assert Order(t, want)[i] in Order(t, want) && Order(t, want)[j] in Order(t, want);
    }
    OrderIsUnique(u, want, Order(t, want));
  }

  // ---- queries -------------------------------------------------------------------------------------

  function InState(t: Table, state: JobState): set<JobId> { set k | k in t && t[k].state == state }

  function ActiveIds(t: Table): set<JobId> { set k | k in t && t[k].state.Active() }

  /** The WHERE clause of `find`: an absent or empty argument is no condition at all. */
  function Matching(t: Table, state: Option<JobState>, states: seq<StateName>, tag: string,
                    since: Option<Stamp>): set<JobId>
  {
    set k | k in t
      && (state.Some? ==> t[k].state == state.value)
      && (states != [] ==> Known(t[k].state) in states)
      && (tag != "" ==> t[k].work.tag == tag)
      && (since.Some? ==> t[k].submitted >= since.value)
  }

  function QueuedIds(t: Table): set<JobId> { InState(t, Queued) }

  function NextQueued(t: Table): Option<JobId>
  {
    if QueuedIds(t) == {} then None else Some(Least(t, QueuedIds(t)))
  }

  /** SELECT MAX(priority) over the queued rows other than `exclude`; NULL when there are none. */
  function MaxQueued(t: Table, exclude: Option<JobId>): (m: Option<int>)
    ensures m.None? <==> forall k :: k in QueuedIds(t) ==> exclude == Some(k)
    ensures m.Some? ==> exists k :: k in QueuedIds(t) && exclude != Some(k) && t[k].priority == m.value
    ensures m.Some? ==> forall k :: k in QueuedIds(t) && exclude != Some(k) ==> t[k].priority <= m.value
  {
    var want := set k | k in QueuedIds(t) && exclude != Some(k);
    if want == {} then
      assert forall k :: k in QueuedIds(t) ==> (exclude == Some(k) || k in want);
      None
    else
      var m := Least(t, want);
      assert m in QueuedIds(t) && exclude != Some(m);
      assert forall k :: k in QueuedIds(t) && exclude != Some(k) ==> k in want;
      Some(t[m].priority)
  }

  /** The number that puts a job ahead of everything queued. */
  function FrontPriority(t: Table, exclude: Option<JobId>): int
  {
    match MaxQueued(t, exclude)
    case Some(top) => top + 1
    case None => 1
  }

  /** One more than the best of the queued rows other than the excluded one, or 1 when there are none. */
  ghost predicate OneAbove(t: Table, exclude: Option<JobId>, priority: int)
  {
    var others := set k | k in QueuedIds(t) && exclude != Some(k);
    if others == {} then priority == 1
    else (exists k :: k in others && t[k].priority == priority - 1)
         && forall k :: k in others ==> t[k].priority < priority
  }

  lemma FrontIsOneAbove(t: Table, exclude: Option<JobId>)
    ensures OneAbove(t, exclude, FrontPriority(t, exclude))
  {
    var others := set k | k in QueuedIds(t) && exclude != Some(k);
    if m :| m in others && MaxQueued(t, exclude) == Some(t[m].priority) {
      assert t[m].priority == FrontPriority(t, exclude) - 1;
    }
  }

  // ---- updates -------------------------------------------------------------------------------------

  function Keep<T>(given: Option<T>, was: Option<T>): Option<T> { if given.Some? then given else was }

  /** UPDATE of one row: the state always, every other column only when a value is given. */
  function Updated(t: Table, id: JobId, state: JobState, pid: Option<int>, exitCode: Option<int>,
                   started: Option<Stamp>, finished: Option<Stamp>): Table
  {
    if id !in t then t else
      var r := t[id];
      t[id := r.(state := state, pid := Keep(pid, r.pid), exitCode := Keep(exitCode, r.exitCode),
                 started := Keep(started, r.started), finished := Keep(finished, r.finished))]
  }

  /** The write used by reconciliation, doctor and the scheduler's last resort. */
  function FailRow(t: Table, id: JobId, now: Stamp): Table
  {
    Updated(t, id, Failed, None, Some(-1), None, Some(now))
  }

  function FailRows(t: Table, ids: set<JobId>, now: Stamp): Table
  {
    map k | k in t :: if k in ids then t[k].(state := Failed, exitCode := Some(-1), finished := Some(now))
                      else t[k]
  }

  lemma FailNothing(t: Table, now: Stamp)
    ensures FailRows(t, {}, now) == t
  {
  }

  function Bumped(t: Table, id: JobId): Table
    requires id in t
  {
    t[id := t[id].(priority := FrontPriority(t, Some(id)))]
  }

  // ---- the repository object -----------------------------------------------------------------------

  class JobRepo {
    var rows: Table

    constructor ()
      ensures rows == map[]
    {
      rows := map[];
    }

    /** A duplicate primary key is refused. */
    method Insert(id: JobId, j: Row) returns (ok: bool)
      modifies this
      ensures ok <==> id !in old(rows)
      ensures rows == if ok then old(rows)[id := j] else old(rows)
    {
      ok := id !in rows;
      if ok { rows := rows[id := j]; }
    }

    method Delete(id: JobId) returns (found: bool)
      modifies this
      ensures found <==> id in old(rows)
      ensures rows == old(rows) - {id}
    {
      found := id in rows;
      rows := rows - {id};
    }

    /** Each argument that is given narrows the query by one more condition. */
    method Find(state: Option<JobState>, states: seq<StateName>, tag: string, since: Option<Stamp>)
      returns (found: seq<JobId>)
      ensures found == Order(rows, Matching(rows, state, states, tag, since))
      ensures forall k :: k in found <==>
        && k in rows
        && (state.None? || rows[k].state == state.value)
        && (states == [] || Known(rows[k].state) in states)
        && (tag == "" || rows[k].work.tag == tag)
        && (since.None? || since.value <= rows[k].submitted)
    {
      var want := rows.Keys;
      if state.Some? { want := set k | k in want && rows[k].state == state.value; }
      if states != [] { want := set k | k in want && Known(rows[k].state) in states; }
      if tag != "" { want := set k | k in want && rows[k].work.tag == tag; }
      if since.Some? { want := set k | k in want && rows[k].submitted >= since.value; }
      assert want == Matching(rows, state, states, tag, since);
      found := Order(rows, want);
    }

    /** None means keep: the SET list grows by one column per argument that is given. */
    method UpdateState(id: JobId, state: JobState, pid: Option<int>, exitCode: Option<int>,
                       started: Option<Stamp>, finished: Option<Stamp>)
      modifies this
      ensures rows == Updated(old(rows), id, state, pid, exitCode, started, finished)
    {
      if id in rows {
        var r := rows[id].(state := state);
        if pid.Some? { r := r.(pid := pid); }
        if exitCode.Some? { r := r.(exitCode := exitCode); }
        if started.Some? { r := r.(started := started); }
        if finished.Some? { r := r.(finished := finished); }
        rows := rows[id := r];
      }
    }

    /** The same write for one more of the rows that are being failed. */
    method Fail(id: JobId, ghost t: Table, ghost done: set<JobId>, now: Stamp)
      requires rows == FailRows(t, done, now) && id in t && id !in done
      modifies this
      ensures rows == FailRows(t, done + {id}, now)
    {
      UpdateState(id, Failed, None, Some(-1), None, Some(now));
    }

    /** Only a queued row can be bumped; it then outranks every other queued row. */
    method Bump(id: JobId) returns (ok: bool)
      modifies this
      ensures ok <==> id in QueuedIds(old(rows))
      ensures rows == if ok then Bumped(old(rows), id) else old(rows)
      ensures ok ==> forall k :: k in QueuedIds(rows) && k != id ==> rows[k].priority < rows[id].priority
      ensures ok ==> OneAbove(old(rows), Some(id), rows[id].priority)
    {
      if id !in rows || rows[id].state != Queued { return false; }
      var top := MaxQueued(rows, Some(id));
      var priority := if top.Some? then top.value + 1 else 1;
      rows := rows[id := rows[id].(priority := priority)];
      ok := true;
      FrontIsOneAbove(old(rows), Some(id));
      assert forall k :: k in QueuedIds(rows) ==> k in QueuedIds(old(rows));
    }
  }
}
