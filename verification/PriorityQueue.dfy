/** The priority FIFO of queue.py, and what it refines.

    The program keeps no list: priority numbers and submission stamps in the job table decide who is
    next.  Pending is the list they stand for, and each lemma XxxRefines shows that one table write is
    exactly one operation on that list. */
module PriorityQueue {
  import opened Common
  import opened Jobs

  function Pending(t: Table): (q: seq<JobId>)
    ensures forall k :: k in q <==> k in QueuedIds(t)
  {
    Order(t, QueuedIds(t))
  }

  // ---- the abstract list ---------------------------------------------------------------------------

  function Without(q: seq<JobId>, gone: set<JobId>): (r: seq<JobId>)
    ensures forall k {:trigger k in r} :: k in r <==> k in q && k !in gone
  {
    if q == [] then [] else
      (if q[0] in gone then [] else [q[0]]) + Without(q[1..], gone)
  }

  /** How many entries from the front have a priority of at least `priority`. */
  function Slot(t: Table, q: seq<JobId>, priority: int): (n: nat)
    requires forall k :: k in q ==> k in t
    ensures n <= |q|
    ensures forall i :: 0 <= i < n ==> t[q[i]].priority >= priority
    ensures n < |q| ==> t[q[n]].priority < priority
  {
    if q == [] || t[q[0]].priority < priority then 0 else 1 + Slot(t, q[1..], priority)
  }

  function InsertAt(q: seq<JobId>, n: nat, id: JobId): seq<JobId>
    requires n <= |q|
  {
    q[..n] + [id] + q[n..]
  }

  // ---- refinement ----------------------------------------------------------------------------------

  lemma {:induction false} WithoutIsSorted(t: Table, want: set<JobId>, q: seq<JobId>, gone: set<JobId>)
    requires want <= t.Keys && Sorted(t, want, q)
    ensures Sorted(t, want - gone, Without(q, gone))
  {
    if q != [] {
      HeadIsLeast(t, want, q);
      TailIsSorted(t, want, q);
      var rest := Without(q[1..], gone);
      WithoutIsSorted(t, want - {q[0]}, q[1..], gone);
      forall j | 0 <= j < |rest| ensures rest[j] in t && Before(t, q[0], rest[j]) {
        assert rest[j] in rest;
      }
    }
  }

  lemma {:induction false} WithoutAppend(q: seq<JobId>, r: seq<JobId>, gone: set<JobId>)
    ensures Without(q + r, gone) == Without(q, gone) + Without(r, gone)
  {
    if q == [] {
      assert q + r == r;
    } else {
      var head := if q[0] in gone then [] else [q[0]];
      WithoutAppend(q[1..], r, gone);
      WithoutFirst(q, gone, head);
      WithoutFirst(q + r, gone, head);
      assert (q + r)[1..] == q[1..] + r;
      Regrouped(head, Without(q[1..], gone), Without(r, gone));
    }
  }

  lemma WithoutFirst(q: seq<JobId>, gone: set<JobId>, head: seq<JobId>)
    requires q != [] && head == if q[0] in gone then [] else [q[0]]
    ensures Without(q, gone) == head + Without(q[1..], gone)
  {
  }

  lemma Regrouped(a: seq<JobId>, b: seq<JobId>, c: seq<JobId>)
    ensures a + (b + c) == a + b + c
  {
  }

  /** A write that only takes rows out of the queue leaves everyone else in the same relative order. */
  lemma LeaveRefines(t: Table, u: Table, gone: set<JobId>)
    requires QueuedIds(u) == QueuedIds(t) - gone
    requires forall k :: k in QueuedIds(u) ==>
      u[k].priority == t[k].priority && u[k].submitted == t[k].submitted
    ensures Pending(u) == Without(Pending(t), gone)
  {
    WithoutIsSorted(t, QueuedIds(t), Pending(t), gone);
    OrderIsUnique(t, QueuedIds(u), Without(Pending(t), gone));
    OrderFrame(t, u, QueuedIds(u));
  }

  /** Popping takes the head: the popped id is the first entry and the rest move up. */
  lemma PopRefines(t: Table, u: Table)
    requires QueuedIds(t) != {}
    requires var id := NextQueued(t).value; QueuedIds(u) == QueuedIds(t) - {id}
    requires forall k :: k in QueuedIds(u) ==>
      u[k].priority == t[k].priority && u[k].submitted == t[k].submitted
    ensures Pending(t) == [NextQueued(t).value] + Pending(u)
  {
    OrderFrame(t, u, QueuedIds(u));
  }

  lemma PriorityDescends(t: Table, i: nat, j: nat)
    requires i <= j < |Pending(t)|
    ensures Pending(t)[i] in t && Pending(t)[j] in t
    ensures t[Pending(t)[i]].priority >= t[Pending(t)[j]].priority
  {
    assert Pending(t)[i] in Pending(t) && Pending(t)[j] in Pending(t);
    assert i < j ==> Before(t, Pending(t)[i], Pending(t)[j]);
  }

  lemma InsertedMembers(q: seq<JobId>, n: nat, id: JobId, k: JobId)
    requires n <= |q|
    ensures k in InsertAt(q, n, id) <==> k in q || k == id
  {
    assert q == q[..n] + q[n..];
  }

  lemma InsertedIsSorted(t: Table, u: Table, want: set<JobId>, q: seq<JobId>, n: nat, id: JobId)
    requires want <= t.Keys && Sorted(t, want, q) && n <= |q|
    requires want + {id} <= u.Keys && forall k :: k in want ==> k != id && u[k] == t[k]
    requires forall i :: 0 <= i < n ==> q[i] in want && Before(u, q[i], id)
    requires forall i :: n <= i < |q| ==> q[i] in want && Before(u, id, q[i])
    ensures Sorted(u, want + {id}, InsertAt(q, n, id))
  {
    var r := InsertAt(q, n, id);
    forall k ensures k in r <==> k in want + {id} { InsertedMembers(q, n, id, k); }
    forall a, b | 0 <= a < b < |r| ensures r[a] in u && r[b] in u && Before(u, r[a], r[b]) {
      InsertedEntry(q, n, id, a);
      InsertedEntry(q, n, id, b);
      if a != n && b != n {
        PairKept(t, u, want, q, if a < n then a else a - 1, if b < n then b else b - 1);
      }
    }
  }

  lemma InsertedEntry(q: seq<JobId>, n: nat, id: JobId, a: nat)
    requires n <= |q| && a < |InsertAt(q, n, id)|
    ensures |InsertAt(q, n, id)| == |q| + 1
    ensures InsertAt(q, n, id)[a] == if a < n then q[a] else if a == n then id else q[a - 1]
  {
  }

  lemma PairKept(t: Table, u: Table, want: set<JobId>, q: seq<JobId>, x: nat, y: nat)
    requires want <= t.Keys && Sorted(t, want, q) && want <= u.Keys && x < y < |q|
    requires forall k :: k in want ==> u[k] == t[k]
    ensures q[x] in want && q[y] in want && Before(u, q[x], q[y])
  {
    assert q[x] in q && q[y] in q && Before(t, q[x], q[y]);
  }

  /** A new row lands behind every queued row of at least its priority and ahead of all others. */
  lemma InsertRefines(t: Table, id: JobId, j: Row)
    requires id !in t && j.state == Queued
    requires forall k :: k in QueuedIds(t) ==> t[k].submitted < j.submitted
    ensures Pending(t[id := j]) == InsertAt(Pending(t), Slot(t, Pending(t), j.priority), id)
  {
    var q, u := Pending(t), t[id := j];
    var n := Slot(t, q, j.priority);
    assert QueuedIds(u) == QueuedIds(t) + {id};
    forall i | 0 <= i < n ensures q[i] in QueuedIds(t) && Before(u, q[i], id) { assert q[i] in q; }
    forall i | n <= i < |q| ensures q[i] in QueuedIds(t) && Before(u, id, q[i]) {
      assert q[i] in q;
      PriorityDescends(t, n, i);
    }
    InsertedIsSorted(t, u, QueuedIds(t), q, n, id);
    OrderIsUnique(u, QueuedIds(u), InsertAt(q, n, id));
  }

  /** `--next` computes a number, and the number means the front of the queue. */
  lemma InsertNextRefines(t: Table, id: JobId, j: Row)
    requires id !in t && j.state == Queued && j.priority == FrontPriority(t, None)
    requires forall k :: k in QueuedIds(t) ==> t[k].submitted < j.submitted
    ensures Pending(t[id := j]) == [id] + Pending(t)
  {
    FrontSlot(t);
    InsertRefines(t, id, j);
    InsertedFirst(Pending(t), id);
  }

  /** No queued row has the priority that `--next` computes, so its slot is the first. */
  lemma FrontSlot(t: Table)
    ensures Slot(t, Pending(t), FrontPriority(t, None)) == 0
  {
    var q := Pending(t);
    if q != [] {
      assert q[0] in q;
    }
  }

  lemma InsertedFirst(q: seq<JobId>, id: JobId)
    ensures InsertAt(q, 0, id) == [id] + q
  {
  }

  /** Bumping is move-to-front, even when the new number is lower than the old one. */
  lemma BumpRefines(t: Table, id: JobId)
    requires id in QueuedIds(t)
    ensures Pending(Bumped(t, id)) == [id] + Without(Pending(t), {id})
  {
    var u := Bumped(t, id);
    var others, rest := QueuedIds(t) - {id}, Without(Pending(t), {id});
    assert QueuedIds(u) == others + {id};
    WithoutIsSorted(t, QueuedIds(t), Pending(t), {id});
    forall i | 0 <= i < |rest| ensures rest[i] in others && Before(u, id, rest[i]) { assert rest[i] in rest; }
    InsertedIsSorted(t, u, others, rest, 0, id);
    InsertedFirst(rest, id);
    OrderIsUnique(u, QueuedIds(u), [id] + rest);
  }

  // ---- positions -----------------------------------------------------------------------------------

  /** The 1-based place in the queue, counted rather than searched for. */
  function PositionOf(t: Table, id: JobId): Option<nat>
  {
    if id in QueuedIds(t) then Some(|Ahead(t, QueuedIds(t), id)| + 1) else None
  }

  /** Position 1 is exactly the row that the next pop takes. */
  lemma FirstIsNext(t: Table, id: JobId)
    ensures PositionOf(t, id) == Some(1) <==> NextQueued(t) == Some(id)
  {
    if id in QueuedIds(t) {
      IndexIsRank(t, QueuedIds(t), id);
      var m := Least(t, QueuedIds(t));
      if m != id {
        assert m in Ahead(t, QueuedIds(t), id);
      } else {
        assert Ahead(t, QueuedIds(t), id) == {};
      }
    }
  }

  // ---- the queue object ----------------------------------------------------------------------------

  class Queue {
    const repo: JobRepo
    var notify: bool

    constructor (repo: JobRepo)
      ensures this.repo == repo && !notify
    {
      this.repo := repo;
      notify := false;
    }

    method Enqueue(id: JobId, j: Row)
      modifies this, repo
      ensures repo.rows == if id in old(repo.rows) then old(repo.rows) else old(repo.rows)[id := j]
      ensures notify == (old(notify) || id !in old(repo.rows))
    {
      var ok := repo.Insert(id, j);
      if ok { notify := true; }
    }

    /** Takes the head of the queue and marks it starting before anything else can happen. */
    method Pop(now: Stamp) returns (next: Option<JobId>)
      modifies this, repo
      ensures next == NextQueued(old(repo.rows))
      ensures next.None? ==> repo.rows == old(repo.rows) && !notify
      ensures next.Some? ==> notify == old(notify)
      ensures next.Some? ==>
        repo.rows == Updated(old(repo.rows), next.value, Starting, None, None, Some(now), None)
      ensures next.Some? ==> Pending(old(repo.rows)) == [next.value] + Pending(repo.rows)
    {
      next := NextQueued(repo.rows);
      if next.None? {
        notify := false;
      } else {
        repo.UpdateState(next.value, Starting, None, None, Some(now), None);
        assert QueuedIds(repo.rows) == QueuedIds(old(repo.rows)) - {next.value};
        PopRefines(old(repo.rows), repo.rows);
      }
    }

    method Position(id: JobId) returns (p: Option<nat>)
      ensures p == PositionOf(repo.rows, id)
    {
      var found := repo.Find(Some(JobState.Queued), [], "", None);
      assert Matching(repo.rows, Some(JobState.Queued), [], "", None) == QueuedIds(repo.rows);
      for i := 0 to |found|
        invariant id !in found[..i]
      {
        if found[i] == id {
          RankOfIndex(repo.rows, QueuedIds(repo.rows), i);
          return Some(i + 1);
        }
      }
      p := None;
    }

    method Cancel(id: JobId, now: Stamp) returns (ok: bool)
      modifies repo
      ensures ok <==> id in QueuedIds(old(repo.rows))
      ensures repo.rows == if ok then Updated(old(repo.rows), id, Cancelled, None, None, None, Some(now))
                           else old(repo.rows)
      ensures ok ==> Pending(repo.rows) == Without(Pending(old(repo.rows)), {id})
    {
      if id !in repo.rows || repo.rows[id].state != Queued { return false; }
      repo.UpdateState(id, Cancelled, None, None, None, Some(now));
      assert QueuedIds(repo.rows) == QueuedIds(old(repo.rows)) - {id};
      LeaveRefines(old(repo.rows), repo.rows, {id});
      ok := true;
    }
  }
}
