/** What a prune request deletes (server.py, `_handle_prune`). */
module Prune {
  import opened Common
  import opened Jobs
  import opened Logs
  import opened PriorityQueue

  /** The request's states, or the terminal ones; active states are then struck out. */
  function KeptStates(states: seq<StateName>): seq<StateName>
  {
    Inactive(if states == [] then [Known(Done), Known(Failed), Known(Cancelled)] else states)
  }

  /** A word that is no state is not struck out; it matches no row. */
  predicate NamesActive(x: StateName) { x.Known? && !x.state.Terminal() }

  function Inactive(states: seq<StateName>): (r: seq<StateName>)
    ensures forall x :: x in r <==> x in states && !NamesActive(x)
  {
    if states == [] then [] else
      (if NamesActive(states[0]) then [] else [states[0]]) + Inactive(states[1..])
  }

  /** A request whose states are all active ones: nothing is left of the list, and an empty list means
      no condition at all to `find`. */
  predicate Unfiltered(states: seq<StateName>)
  {
    states != [] && forall x :: x in states ==> NamesActive(x)
  }

  lemma UnfilteredIsEmpty(states: seq<StateName>)
    ensures Unfiltered(states) <==> KeptStates(states) == []
  {
    var k := KeptStates(states);
    if states == [] {
      assert Known(Done) in [Known(Done), Known(Failed), Known(Cancelled)];
      assert Known(Done) in k;
    } else if k != [] {
      assert k[0] in k;
    } else {
      forall x | x in states ensures NamesActive(x) { assert x !in k; }
    }
  }

  function AgeStamp(r: Row): Stamp { if r.finished.Some? then r.finished.value else r.submitted }

  predicate Prunable(r: Row, keepTag: string, cutoff: Stamp)
  {
    !(keepTag != "" && r.work.tag == keepTag) && AgeStamp(r) < cutoff
  }

  function Victims(t: Table, states: seq<StateName>, keepTag: string, cutoff: Stamp): set<JobId>
  {
    set k | k in Matching(t, None, KeptStates(states), "", None) && Prunable(t[k], keepTag, cutoff)
  }

  /** With at least one word that is not an active state (or none at all), prune deletes exactly the rows in
      those states, not carrying the kept tag, last touched before the cutoff; so never an active row. */
  lemma VictimsExactly(t: Table, states: seq<StateName>, keepTag: string, cutoff: Stamp, id: JobId)
    requires !Unfiltered(states)
    ensures id in Victims(t, states, keepTag, cutoff) <==>
            && id in t && t[id].state.Terminal() && (states == [] || Known(t[id].state) in states)
            && (keepTag == "" || t[id].work.tag != keepTag)
            && (if t[id].finished.Some? then t[id].finished.value else t[id].submitted) < cutoff
  {
    UnfilteredIsEmpty(states);
  }

  /** "Refuses to prune queued/running" holds of a request exactly when it is not Unfiltered. */
  lemma RefusesActiveRows(states: seq<StateName>)
    ensures !Unfiltered(states) <==>
            forall t: Table, keepTag, cutoff, id ::
              id in Victims(t, states, keepTag, cutoff) ==> t[id].state.Terminal()
  {
    UnfilteredIsEmpty(states);
    if Unfiltered(states) {
      PruneRunningJob(states);
    }
  }

  /** Asking to prune the states that must not be pruned deletes a running row. */
  lemma PruneRunningJob(states: seq<StateName>)
    requires Unfiltered(states)
    ensures var t: Table := map[7 := RunningRow()];
            7 in Victims(t, states, "", 10) && t[7].state == Running
  {
    UnfilteredIsEmpty(states);
  }

  function RunningRow(): Row
  {
    Row(Work([], "", map[], "", None), 0, Running, None, None, 0, Some(1), None, None)
  }

  method Candidates(repo: JobRepo, states: seq<StateName>) returns (found: seq<JobId>)
    ensures found == Order(repo.rows, Matching(repo.rows, None, KeptStates(states), "", None))
  {
    found := repo.Find(None, KeptStates(states), "", None);
  }

  method Discard(repo: JobRepo, logs: JobLogs, j: JobId)
    modifies repo, logs`disk
    ensures repo.rows == old(repo.rows) - {j} && logs.disk == old(logs.disk) - {j}
  {
    var _ := repo.Delete(j);
    logs.Remove(j);
  }

  /** The handler's loop over the candidates. */
  method HandlePrune(repo: JobRepo, logs: JobLogs, states: seq<StateName>, keepTag: string, cutoff: Stamp,
                     dryRun: bool) returns (deleted: seq<JobId>)
    modifies repo, logs`disk
    ensures deleted == Order(old(repo.rows), Victims(old(repo.rows), states, keepTag, cutoff))
    ensures repo.rows == if dryRun then old(repo.rows)
                         else old(repo.rows) - Victims(old(repo.rows), states, keepTag, cutoff)
    ensures logs.disk == if dryRun then old(logs.disk)
                         else old(logs.disk) - Victims(old(repo.rows), states, keepTag, cutoff)
  {
    ghost var t, disk, gone := repo.rows, logs.disk, {};
    ghost var want := Matching(t, None, KeptStates(states), "", None);
    ghost var spared := set k | k in t && !Prunable(t[k], keepTag, cutoff);
    var found := Candidates(repo, states);
    deleted := [];
    for i := 0 to |found|
      invariant deleted == Without(found[..i], spared)
      invariant forall k :: k in gone <==> k in deleted
      invariant repo.rows == if dryRun then t else t - gone
      invariant logs.disk == if dryRun then disk else disk - gone
    {
      var j := found[i];
      CandidateStep(t, want, i, spared);
      assert repo.rows[j] == t[j] && (j in spared <==> !Prunable(t[j], keepTag, cutoff));
      if (keepTag != "" && repo.rows[j].work.tag == keepTag) || AgeStamp(repo.rows[j]) >= cutoff { continue; }
      deleted := deleted + [j];
      RemoveOne(t, gone, j);
      RemoveOne(disk, gone, j);
      gone := gone + {j};
      if !dryRun { Discard(repo, logs, j); }
    }
    assert found[..|found|] == found;
    SurvivorsOfTheFilter(t, states, keepTag, cutoff, spared, gone);
  }

  lemma RemoveOne<V>(m: map<JobId, V>, gone: set<JobId>, j: JobId)
    ensures (m - gone) - {j} == m - (gone + {j})
  {
    assert ((m - gone) - {j}).Keys == (m - (gone + {j})).Keys;
  }

  lemma SurvivorsOfTheFilter(t: Table, states: seq<StateName>, keepTag: string, cutoff: Stamp,
                             spared: set<JobId>, gone: set<JobId>)
    requires spared == set k | k in t && !Prunable(t[k], keepTag, cutoff)
    requires var q := Order(t, Matching(t, None, KeptStates(states), "", None));
             forall k :: k in gone <==> k in Without(q, spared)
    ensures var q := Order(t, Matching(t, None, KeptStates(states), "", None));
            Without(q, spared) == Order(t, Victims(t, states, keepTag, cutoff))
    ensures gone == Victims(t, states, keepTag, cutoff)
  {
    var want := Matching(t, None, KeptStates(states), "", None);
    var q := Order(t, want);
    WithoutIsOrder(t, want, spared);
    assert want - spared == Victims(t, states, keepTag, cutoff);
  }

  /** The row under the loop's cursor is still there, and is the next entry of the result or not in it. */
  lemma CandidateStep(t: Table, want: set<JobId>, i: nat, spared: set<JobId>)
    requires want <= t.Keys && i < |Order(t, want)|
    ensures var q := Order(t, want);
      && q[i] in want && q[i] !in Without(q[..i], spared)
      && Without(q[..i + 1], spared) == Without(q[..i], spared) + if q[i] in spared then [] else [q[i]]
  {
    OnceInOrder(t, want, i);
    WithoutNext(Order(t, want), i, spared);
  }

  /** What a filter leaves of a query's listing is the listing of what it leaves. */
  lemma WithoutIsOrder(t: Table, want: set<JobId>, gone: set<JobId>)
    requires want <= t.Keys
    ensures Without(Order(t, want), gone) == Order(t, want - gone)
  {
    WithoutIsSorted(t, want, Order(t, want), gone);
    OrderIsUnique(t, want - gone, Without(Order(t, want), gone));
  }

  lemma WithoutNext(q: seq<JobId>, i: nat, gone: set<JobId>)
    requires i < |q|
    ensures Without(q[..i + 1], gone) == Without(q[..i], gone) + if q[i] in gone then [] else [q[i]]
  {
    assert q[..i + 1] == q[..i] + [q[i]];
    WithoutAppend(q[..i], [q[i]], gone);
    assert Without([q[i]], gone) == if q[i] in gone then [] else [q[i]];
  }
}
