/** The event fan-out of server.py: class Bus and the loop that streams a subscription to a client. */
module Events {
  import opened Common
  import opened Jobs
  import opened Logs

  datatype Event =
    | EvictedEv(models: seq<string>)
    | RunningEv(at: Stamp)
    | LogEv(line: Line)
    | EndEv(state: JobState, exitCode: Option<int>)
    | Closed                                          // the None that Bus.close puts in each queue

  type Feed = seq<Event>                              // everything ever published about one job

  function FeedOf(feeds: map<JobId, Feed>, id: JobId): Feed
  {
    if id in feeds then feeds[id] else []
  }

  function Published(feeds: map<JobId, Feed>, id: JobId, ev: Event): map<JobId, Feed>
  {
    feeds[id := FeedOf(feeds, id) + [ev]]
  }

  /** What `_stream_until_terminal` has sent once it has seen `evs`: up to and including the first
      terminal state event, or up to a Closed marker, whichever comes first. */
  function Streamed(evs: Feed): (sent: Feed)
    ensures sent <= evs
  {
    if evs == [] || evs[0].Closed? then []
    else if evs[0].EndEv? then [evs[0]]
    else [evs[0]] + Streamed(evs[1..])
  }

  /** The client's connection is released: the loop has returned. */
  predicate StreamEnds(evs: Feed)
  {
    exists i :: 0 <= i < |evs| && (evs[i].EndEv? || evs[i].Closed?)
  }

  /** A stream in which the first end marker is at n-1 sends exactly n events. */
  lemma {:induction false} StreamedUpTo(evs: Feed, n: nat)
    requires n < |evs| && evs[n].EndEv?
    requires forall i :: 0 <= i < n ==> !evs[i].EndEv? && !evs[i].Closed?
    ensures Streamed(evs) == evs[..n + 1]
  {
    if n > 0 {
      StreamedUpTo(evs[1..], n - 1);
      assert evs[..n + 1] == [evs[0]] + evs[1..][..n];
    }
  }

  /** One entry of the program's `_subs` lists: an event queue that waits on one job. */
  datatype Sub = Sub(job: JobId, queue: Feed)

  class Bus {
    var subs: map<Handle, Sub>
    var nextHandle: Handle
    ghost var feeds: map<JobId, Feed>
    ghost var since: map<Handle, nat>                 // how much was published before it subscribed
    ghost var taken: map<Handle, Feed>                // what it has already read

    ghost predicate InStep(h: Handle)
      requires h in subs
      reads this
    {
      && h < nextHandle && h in since && h in taken
      && since[h] <= |FeedOf(feeds, subs[h].job)|
      && taken[h] + subs[h].queue == FeedOf(feeds, subs[h].job)[since[h]..]
    }

    /** Every subscriber holds exactly the part of the feed published since it subscribed: nothing
        lost, nothing twice, nothing out of order, nothing of another job. */
    ghost predicate Valid()
      reads this
    {
      forall h {:trigger InStep(h)} :: h in subs ==> InStep(h)
    }

    /** Every subscription is kept, for its own job, from where it began, and nobody reads for the client. */
    twostate predicate Stay()
      reads this
    {
      forall h :: h in old(subs) ==>
        && h in subs && subs[h].job == old(subs)[h].job
        && (h in old(since) ==> h in since && since[h] == old(since)[h])
        && (h in old(taken) ==> h in taken && taken[h] == old(taken)[h])
    }

    constructor ()
      ensures Valid() && feeds == map[] && subs == map[]
    {
      subs, nextHandle, feeds, since, taken := map[], 0, map[], map[], map[];
    }

    method Subscribe(id: JobId) returns (h: Handle)
      requires Valid()
      modifies this
      ensures Valid() && feeds == old(feeds)
      ensures h !in old(subs) && subs == old(subs)[h := Sub(id, [])]
      ensures since == old(since)[h := |FeedOf(feeds, id)|] && taken == old(taken)[h := []]
    {
      h := nextHandle;
      nextHandle := nextHandle + 1;
      subs := subs[h := Sub(id, [])];
      since := since[h := |FeedOf(feeds, id)|];
      taken := taken[h := []];
      assert forall k :: k in old(subs) ==> old(InStep(k));
    }

    method Unsubscribe(h: Handle)
      requires Valid()
      modifies `subs
      ensures Valid() && subs == old(subs) - {h}
    {
      subs := subs - {h};
      assert forall k :: k in subs ==> old(InStep(k));
    }

    method PutAll(id: JobId, ev: Event)
      modifies `subs
      ensures subs.Keys == old(subs).Keys
      ensures forall h :: h in subs ==>
        subs[h] == if old(subs)[h].job == id then Sub(id, old(subs)[h].queue + [ev]) else old(subs)[h]
    {
      var todo := set h | h in subs && subs[h].job == id;
      while todo != {}
        invariant todo <= subs.Keys == old(subs).Keys
        invariant forall h :: h in todo ==> old(subs)[h].job == id
        invariant forall h :: h in subs ==>
          subs[h] == if old(subs)[h].job == id && h !in todo
                     then Sub(id, old(subs)[h].queue + [ev]) else old(subs)[h]
      {
        var h :| h in todo;
        subs := subs[h := Sub(subs[h].job, subs[h].queue + [ev])];
        todo := todo - {h};
      }
    }

    /** Publishing puts the event in the queue of every current subscriber of that job. */
    method Publish(id: JobId, ev: Event)
      requires Valid()
      modifies `subs, `feeds
      ensures Valid() && feeds == Published(old(feeds), id, ev) && Stay()
      ensures subs.Keys == old(subs).Keys && forall h :: h in subs ==>
        subs[h] == if old(subs)[h].job == id then Sub(id, old(subs)[h].queue + [ev]) else old(subs)[h]
    {
      PutAll(id, ev);
      feeds := Published(feeds, id, ev);
      forall h | h in subs ensures InStep(h) {
        assert old(InStep(h));
        if subs[h].job == id {
          FeedGrows(FeedOf(old(feeds), id), since[h], taken[h], old(subs)[h].queue, ev);
        }
      }
    }

    method Close(id: JobId)
      requires Valid()
      modifies `subs, `feeds
      ensures Valid() && feeds == Published(old(feeds), id, Event.Closed) && Stay()
      ensures subs.Keys == old(subs).Keys && forall h :: h in subs ==>
        subs[h] == if old(subs)[h].job == id then Sub(id, old(subs)[h].queue + [Event.Closed]) else old(subs)[h]
    {
      Publish(id, Event.Closed);
    }

    method Get(h: Handle) returns (ev: Event)
      requires Valid() && h in subs && subs[h].queue != []
      modifies `subs, `taken
      ensures Valid() && h in old(taken) && ev == old(subs)[h].queue[0]
      ensures subs == old(subs)[h := Sub(old(subs)[h].job, old(subs)[h].queue[1..])]
      ensures taken == old(taken)[h := old(taken)[h] + [ev]]
    {
      var sub := subs[h];
      ev := sub.queue[0];
      subs := subs[h := Sub(sub.job, sub.queue[1..])];
      assert old(InStep(h));
      taken := taken[h := taken[h] + [ev]];
      assert taken[h] + subs[h].queue == old(taken)[h] + sub.queue;
      assert forall k :: k in subs ==> old(InStep(k));
    }

    /** What a subscriber was given and will be given. */
    ghost function Feeding(h: Handle): Feed
      requires h in subs && InStep(h)
      reads this
    {
      FeedOf(feeds, subs[h].job)[since[h]..]
    }

    /** Everyone but this client keeps what they have. */
    twostate predicate Others(h: Handle)
      reads this
    {
      && (forall k :: k in old(subs) && k != h ==> k in subs && subs[k] == old(subs)[k])
      && (forall k :: k in old(taken) && k != h ==> k in taken && taken[k] == old(taken)[k])
      && (forall k :: k in subs ==> k in old(subs))
    }

    /** Where the client of handle h is: it has been sent what it has read, and no end was in it. */
    ghost predicate Sending(h: Handle, sent: Feed)
      reads this
    {
      h in subs && InStep(h) && sent == taken[h] && !StreamEnds(sent)
    }

    /** One event of the streaming loop; a closing marker or a terminal event ends it. */
    method SendOne(h: Handle, sent: Feed) returns (sent': Feed, returned: bool)
      requires Valid() && Sending(h, sent) && subs[h].queue != []
      modifies `subs, `taken
      ensures Valid() && Others(h)
      ensures returned ==> h !in subs
      ensures returned ==> sent' == Streamed(old(Feeding(h))) && StreamEnds(old(Feeding(h)))
      ensures !returned ==> Sending(h, sent') && subs[h] == Sub(old(subs)[h].job, old(subs)[h].queue[1..])
    {
      Decided(Feeding(h), sent, subs[h].queue);
      var ev := Get(h);
      sent' := if ev.Closed? then sent else sent + [ev];
      returned := ev.Closed? || ev.EndEv?;
      if returned { Unsubscribe(h); }
    }

    /** The streaming loop, run until it must wait for the next event or returns.  Whatever was read
        before, what the client has been sent is Streamed of the feed since it subscribed. */
    method StreamUntilTerminal(h: Handle, sent: Feed) returns (sent': Feed, returned: bool)
      requires Valid() && Sending(h, sent)
      modifies `subs, `taken
      ensures Valid() && Others(h)
      ensures sent' == Streamed(old(Feeding(h))) && returned == StreamEnds(old(Feeding(h)))
      ensures returned ==> h !in subs
      ensures !returned ==> Sending(h, sent') && subs[h] == Sub(old(subs)[h].job, [])
    {
      sent', returned := sent, false;
      while !returned && subs[h].queue != []
        invariant Valid() && Others(h)
        invariant returned ==> h !in subs && sent' == Streamed(old(Feeding(h))) && StreamEnds(old(Feeding(h)))
        invariant !returned ==> Sending(h, sent') && subs[h].job == old(subs)[h].job
        decreases !returned, if returned then 0 else |subs[h].queue|
      {
        sent', returned := SendOne(h, sent');
      }
      if !returned { StreamedAll(Feeding(h)); }
    }
  }

  /** The next event decides whether the stream is over. */
  lemma Decided(evs: Feed, sent: Feed, queue: Feed)
    requires evs == sent + queue && queue != [] && !StreamEnds(sent)
    ensures queue[0].Closed? ==> Streamed(evs) == sent && StreamEnds(evs)
    ensures queue[0].EndEv? ==> Streamed(evs) == sent + [queue[0]] && StreamEnds(evs)
    ensures !queue[0].Closed? && !queue[0].EndEv? ==> !StreamEnds(sent + [queue[0]])
  {
    var n := |sent|;
    assert evs[..n] == sent && evs[n] == queue[0] && evs[..n + 1] == sent + [queue[0]];
    if queue[0].Closed? {
      EndsAt(evs, n);
      StreamedClosed(evs, n);
    } else if queue[0].EndEv? {
      EndsAt(evs, n);
      StreamedUpTo(evs, n);
    } else {
      NoEndYet(sent, queue[0]);
    }
  }

  lemma EndsAt(evs: Feed, n: nat)
    requires n < |evs| && (evs[n].EndEv? || evs[n].Closed?) && !StreamEnds(evs[..n])
    ensures StreamEnds(evs) && forall i :: 0 <= i < n ==> !evs[i].EndEv? && !evs[i].Closed?
  {
    forall i | 0 <= i < n ensures !evs[i].EndEv? && !evs[i].Closed? { assert evs[..n][i] == evs[i]; }
  }

  lemma NoEndYet(evs: Feed, ev: Event)
    requires !StreamEnds(evs) && !ev.EndEv? && !ev.Closed?
    ensures !StreamEnds(evs + [ev])
  {
  }

  lemma FeedGrows(feed: Feed, n: nat, taken: Feed, queue: Feed, ev: Event)
    requires n <= |feed| && taken + queue == feed[n..]
    ensures taken + (queue + [ev]) == (feed + [ev])[n..]
  {
    assert (feed + [ev])[n..] == feed[n..] + [ev];
    assert taken + (queue + [ev]) == (taken + queue) + [ev];
  }

  lemma {:induction false} StreamedClosed(evs: Feed, n: nat)
    requires n < |evs| && evs[n].Closed?
    requires forall i :: 0 <= i < n ==> !evs[i].EndEv? && !evs[i].Closed?
    ensures Streamed(evs) == evs[..n]
  {
    if n > 0 {
      StreamedClosed(evs[1..], n - 1);
      assert evs[..n] == [evs[0]] + evs[1..][..n - 1];
    }
  }

  lemma {:induction false} StreamedAll(evs: Feed)
    requires !StreamEnds(evs)
    ensures Streamed(evs) == evs
  {
    if evs != [] {
      assert forall i :: 0 <= i < |evs[1..]| ==> evs[1..][i] == evs[i + 1];
      StreamedAll(evs[1..]);
    }
  }
}
