/** The per-job log directory of logs.py, its live followers, and the two pumps of runner.py. */
module Logs {
  import opened Common

  datatype Stream = Stdout | Stderr
  datatype Line = Line(stream: Stream, text: string)
  datatype Item = Got(line: Line) | Eof     // what a follower's queue holds; Eof is the program's None
  type Handle = nat                         // the identity of an asyncio.Queue

  /** The three plain-text files and the replay index of one job. */
  datatype Dir = Dir(out: string, err: string, combined: string, index: seq<Line>)

  const EMPTY_DIR := Dir("", "", "", [])

  function Project(ls: seq<Line>, s: Stream): seq<Line>
  {
    if ls == [] then [] else
      var l := ls[|ls| - 1];
      Project(ls[..|ls| - 1], s) + if l.stream == s then [l] else []
  }

  function Text(ls: seq<Line>): string
  {
    if ls == [] then "" else Text(ls[..|ls| - 1]) + ls[|ls| - 1].text
  }

  /** stdout.log and stderr.log hold their own stream's lines, combined.log holds all of them in order. */
  ghost predicate Consistent(d: Dir)
  {
    && d.out == Text(Project(d.index, Stdout))
    && d.err == Text(Project(d.index, Stderr))
    && d.combined == Text(d.index)
  }

  function Write(d: Dir, l: Line): (r: Dir)
    ensures r.index == d.index + [l]
    ensures Consistent(d) ==> Consistent(r)
  {
    WriteConsistent(d, l);
    Dir(if l.stream == Stdout then d.out + l.text else d.out,
        if l.stream == Stdout then d.err else d.err + l.text,
        d.combined + l.text, d.index + [l])
  }

  lemma WriteConsistent(d: Dir, l: Line)
    ensures Text(d.index + [l]) == Text(d.index) + l.text
    ensures forall s :: Project(d.index + [l], s) ==
                        if l.stream == s then Project(d.index, s) + [l] else Project(d.index, s)
    ensures Text(Project(d.index, l.stream) + [l]) == Text(Project(d.index, l.stream)) + l.text
  {
    assert (d.index + [l])[..|d.index|] == d.index;
    var p := Project(d.index, l.stream);
    assert (p + [l])[..|p|] == p;
  }

  function Lines(items: seq<Item>): seq<Line>
  {
    if items == [] then [] else
      (if items[0].Got? then [items[0].line] else []) + Lines(items[1..])
  }

  lemma {:induction false} LinesAppend(a: seq<Item>, b: seq<Item>)
    ensures Lines(a + b) == Lines(a) + Lines(b)
  {
    if a == [] {
      assert a + b == b;
    } else {
      var head := if a[0].Got? then [a[0].line] else [];
      LinesAppend(a[1..], b);
      assert (a + b)[1..] == a[1..] + b;
      assert head + (Lines(a[1..]) + Lines(b)) == (head + Lines(a[1..])) + Lines(b);
    }
  }

  lemma {:induction false} ProjectAppend(a: seq<Line>, b: seq<Line>, s: Stream)
    ensures Project(a + b, s) == Project(a, s) + Project(b, s)
  {
    if b == [] {
      assert a + b == a;
    } else {
      ProjectAppend(a, b[..|b| - 1], s);
      assert (a + b)[..|a + b| - 1] == a + b[..|b| - 1];
    }
  }

  function Deliver(w: map<Handle, seq<Item>>, i: Item): map<Handle, seq<Item>>
  {
    map h | h in w :: w[h] + [i]
  }

  function Logged(disk: map<JobId, Dir>, id: JobId, l: Line): map<JobId, Dir>
  {
    if id in disk then disk[id := Write(disk[id], l)] else disk   // else: the directory was removed
  }

  function Index(disk: map<JobId, Dir>, id: JobId): seq<Line>
  {
    if id in disk then disk[id].index else []
  }

  /** `ls[-n:]`: the last n lines; all of them for 0, and for a negative n all but the first -n. */
  function Last(ls: seq<Line>, n: int): seq<Line>
  {
    var from := if n > 0 then |ls| - n else -n;
    if from <= 0 then ls else if from >= |ls| then [] else ls[from..]
  }

  /** All log directories, and the one JobLogs object that is open for writing.  (The program makes a new
      object for each job; at most one is ever open.) */
  class JobLogs {
    var disk: map<JobId, Dir>
    var job: Option<JobId>
    var waiters: map<Handle, seq<Item>>
    var nextHandle: Handle

    ghost predicate Valid() reads this { forall h :: h in waiters ==> h < nextHandle }

    constructor ()
      ensures Valid() && disk == map[] && job == None && waiters == map[]
    {
      disk, job, waiters, nextHandle := map[], None, map[], 0;
    }

    /** Files are opened for appending: an existing directory keeps its contents. */
    method Open(id: JobId)
      modifies this
      ensures Valid() && job == Some(id) && waiters == map[]
      ensures disk == if id in old(disk) then old(disk) else old(disk)[id := EMPTY_DIR]
    {
      if id !in disk { disk := disk[id := EMPTY_DIR]; }
      job, waiters := Some(id), map[];
    }

    /** One line to its own file, to the combined file, to the index, and to every follower. */
    method Append(stream: Stream, text: string)
      requires Valid() && job.Some?
      modifies this
      ensures Valid() && job == old(job)
      ensures disk == Logged(old(disk), job.value, Line(stream, text))
      ensures waiters == Deliver(old(waiters), Got(Line(stream, text)))
    {
      var l := Line(stream, text);
      if job.value in disk {
        var d := disk[job.value];
        if stream == Stdout { d := d.(out := d.out + text); } else { d := d.(err := d.err + text); }
        d := d.(combined := d.combined + text);
        d := d.(index := d.index + [l]);
        disk := disk[job.value := d];
      }
      PutAll(Got(l));
    }

    method Eof()
      requires Valid()
      modifies this
      ensures Valid() && disk == old(disk) && job == old(job)
      ensures waiters == Deliver(old(waiters), Item.Eof)
    {
      PutAll(Item.Eof);
    }

    method PutAll(i: Item)
      requires Valid()
      modifies `waiters
      ensures waiters == Deliver(old(waiters), i) && Valid()
    {
      var todo := waiters.Keys;
      while todo != {}
        invariant todo <= waiters.Keys == old(waiters).Keys
        invariant forall h :: h in waiters ==>
          waiters[h] == if h in todo then old(waiters)[h] else old(waiters)[h] + [i]
      {
        var h :| h in todo;
        waiters := waiters[h := waiters[h] + [i]];
        todo := todo - {h};
      }
    }

    method Close()
      requires Valid()
      modifies this
      ensures Valid() && disk == old(disk) && job == None && waiters == old(waiters)
    {
      job := None;
    }

    /** `shutil.rmtree` of one job's directory. */
    method Remove(id: JobId)
      modifies `disk
      ensures disk == old(disk) - {id}
    {
      disk := disk - {id};
    }

    method ReadAll(id: JobId) returns (ls: seq<Line>)
      ensures ls == Index(disk, id)
    {
      ls := [];
      if id in disk {
        for i := 0 to |disk[id].index|
          invariant ls == disk[id].index[..i]
        {
          ls := ls + [disk[id].index[i]];
        }
      }
    }

    /** For every n; with n of at least 1 these are the newest lines, and no more than n. */
    method Tail(id: JobId, n: int) returns (ls: seq<Line>)
      ensures ls == Last(Index(disk, id), n)
      ensures n >= 1 ==> |ls| <= n && |ls| <= |Index(disk, id)|
      ensures n >= 1 ==> ls == Index(disk, id)[|Index(disk, id)| - |ls|..]
      ensures n >= 1 && |ls| < n ==> ls == Index(disk, id)
    {
      ls := ReadAll(id);
      if n > 0 {
        if n < |ls| { ls := ls[|ls| - n..]; }
      } else if -n < |ls| {
        ls := ls[-n..];
      } else {
        ls := [];
      }
    }

    method Follow() returns (h: Handle)
      requires Valid()
      modifies this
      ensures Valid() && disk == old(disk) && job == old(job)
      ensures h !in old(waiters) && waiters == old(waiters)[h := []]
    {
      h := nextHandle;
      nextHandle := nextHandle + 1;
      waiters := waiters[h := []];
    }

    /** One turn of the `follow` loop: the end marker takes the queue off the list. */
    method Take(h: Handle) returns (i: Item)
      requires Valid() && h in waiters && waiters[h] != []
      modifies this
      ensures Valid() && disk == old(disk) && job == old(job) && i == old(waiters)[h][0]
      ensures waiters == if i.Eof? then old(waiters) - {h} else old(waiters)[h := old(waiters)[h][1..]]
    {
      i := waiters[h][0];
      waiters := waiters[h := waiters[h][1..]];
      if i.Eof? { waiters := waiters - {h}; }
    }

    /** Since the pumps started the index and every follower have gained exactly these lines. */
    ghost predicate Fed(was: seq<Line>, followers: map<Handle, seq<Item>>, gained: seq<Line>)
      reads this
    {
      && job.Some? && job.value in disk && disk[job.value].index == was + gained
      && waiters.Keys == followers.Keys
      && forall h :: h in waiters ==> Lines(waiters[h]) == Lines(followers[h]) + gained
    }

    method PumpLine(stream: Stream, text: string, ghost was: seq<Line>,
                    ghost followers: map<Handle, seq<Item>>, ghost gained: seq<Line>)
      requires Valid() && Fed(was, followers, gained)
      modifies this
      ensures Valid() && job == old(job) && disk.Keys == old(disk).Keys
      ensures Fed(was, followers, Gain(gained, Line(stream, text)))
      ensures old(Consistent(disk[job.value])) ==> Consistent(disk[job.value])
    {
      ghost var l := Line(stream, text);
      FedGrows(waiters, followers, gained, l);
      assert (was + gained) + [l] == was + (gained + [l]);
      Append(stream, text);
    }

    /** Both pumps of Runner.run until their pipes close, under an arbitrary interleaving: whichever way
        the two loops take turns, each pipe's lines come out complete and in their own order, and a
        follower present from the beginning is handed exactly what the index gained. */
    method Pumps(out: seq<string>, err: seq<string>) returns (ghost gained: seq<Line>)
      requires Valid() && job.Some? && job.value in disk && Consistent(disk[job.value])
      modifies this
      ensures Valid() && job == old(job) && disk.Keys == old(disk).Keys
      ensures Fed(old(disk)[old(job).value].index, old(waiters), gained) && Consistent(disk[job.value])
      ensures Project(gained, Stdout) == Piped(out, Stdout)
      ensures Project(gained, Stderr) == Piped(err, Stderr)
    {
      var o, e := 0, 0;
      gained := [];
      while o < |out| || e < |err|
        invariant Valid() && job == old(job) && disk.Keys == old(disk).Keys
        invariant o <= |out| && e <= |err|
        invariant Fed(old(disk)[old(job).value].index, old(waiters), gained)
        invariant Consistent(disk[job.value])
        invariant Project(gained, Stdout) == Piped(out[..o], Stdout)
        invariant Project(gained, Stderr) == Piped(err[..e], Stderr)
        decreases |out| - o + |err| - e
      {
        if
        case o < |out| =>
          PumpLine(Stdout, out[o], old(disk)[old(job).value].index, old(waiters), gained);
          gained := Gain(gained, Line(Stdout, out[o]));
          PipedStep(out, o, Stdout);
          o := o + 1;
        case e < |err| =>
          PumpLine(Stderr, err[e], old(disk)[old(job).value].index, old(waiters), gained);
          gained := Gain(gained, Line(Stderr, err[e]));
          PipedStep(err, e, Stderr);
          e := e + 1;
      }
      assert out[..o] == out && err[..e] == err;
    }
  }

  function Gain(ls: seq<Line>, l: Line): (r: seq<Line>)
    ensures r == ls + [l]
    ensures forall s :: Project(r, s) == if l.stream == s then Project(ls, s) + [l] else Project(ls, s)
  {
    assert (ls + [l])[..|ls|] == ls;
    ls + [l]
  }

  lemma PipedStep(texts: seq<string>, n: nat, s: Stream)
    requires n < |texts|
    ensures Piped(texts[..n + 1], s) == Piped(texts[..n], s) + [Line(s, texts[n])]
  {
    assert texts[..n + 1][..n] == texts[..n];
  }

  function Piped(texts: seq<string>, s: Stream): seq<Line>
  {
    if texts == [] then [] else Piped(texts[..|texts| - 1], s) + [Line(s, texts[|texts| - 1])]
  }

  lemma FedGrows(w: map<Handle, seq<Item>>, v: map<Handle, seq<Item>>, gained: seq<Line>, l: Line)
    requires w.Keys == v.Keys && forall h :: h in w ==> Lines(w[h]) == Lines(v[h]) + gained
    ensures forall h :: h in v ==> Lines(Deliver(w, Got(l))[h]) == Lines(v[h]) + Gain(gained, l)
  {
    DeliverLine(w, l);
    forall h | h in v ensures Lines(Deliver(w, Got(l))[h]) == Lines(v[h]) + Gain(gained, l) {
      assert Lines(v[h]) + (gained + [l]) == (Lines(v[h]) + gained) + [l];
    }
  }

  lemma DeliverLine(w: map<Handle, seq<Item>>, l: Line)
    ensures forall h :: h in w ==> Lines(Deliver(w, Got(l))[h]) == Lines(w[h]) + [l]
  {
    forall h | h in w ensures Lines(Deliver(w, Got(l))[h]) == Lines(w[h]) + [l] {
      LinesAppend(w[h], [Got(l)]);
      assert Lines([Got(l)]) == [l];
    }
  }
}
