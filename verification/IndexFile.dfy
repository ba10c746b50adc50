/** The text of index.jsonl (logs.py): one JSON record for each line a job has written.

    Module Logs keeps the index as the sequence of its records; here is why the file is as good as that. */
module IndexFile {
  import opened Common
  import opened Scalars
  import Json
  import opened Logs

  function StreamName(s: Stream): string { if s.Stdout? then "stdout" else "stderr" }

  function RecordOf(l: Line): Json.Value
  {
    Json.Obj([Json.Entry(Py("stream"), Json.Str(Py(StreamName(l.stream)))),
              Json.Entry(Py("line"), Json.Str(Py(l.text)))])
  }

  /** What one append writes. */
  function Frame(l: Line): string { Json.Print(RecordOf(l)) + "\n" }

  function FileText(ls: seq<Line>): string { if ls == [] then "" else Frame(ls[0]) + FileText(ls[1..]) }

  /** Each append writes at the end of the file. */
  lemma {:induction false} AppendAtEnd(ls: seq<Line>, l: Line)
    ensures FileText(ls + [l]) == FileText(ls) + Frame(l)
  {
    if ls == [] {
      assert ls + [l] == [l];
      assert FileText([l][1..]) == "";
    } else {
      var rest := FileText(ls[1..]);
      AppendAtEnd(ls[1..], l);
      assert (ls + [l])[1..] == ls[1..] + [l];
      assert FileText(ls + [l]) == Frame(ls[0]) + (rest + Frame(l));
      Associate(Frame(ls[0]), rest, Frame(l));
    }
  }

  lemma Associate(a: string, b: string, c: string)
    ensures a + (b + c) == (a + b) + c
  {
  }

  /** A pair of `read_all`: whatever the record has under the two keys, of any type. */
  datatype Pair = Pair(stream: Json.Value, line: Json.Value)

  function Lookup(d: seq<Json.Entry>, key: Text): Option<Json.Value>
  {
    if d == [] then None else if d[0].key == key then Some(d[0].value) else Lookup(d[1..], key)
  }

  /** (rec["stream"], rec["line"]); None where the program raises, which is for anything but an object
      with both keys. */
  function FromRecord(v: Json.Value): Option<Pair>
  {
    if !v.Obj? then None else
      match (Lookup(v.entries, Py("stream")), Lookup(v.entries, Py("line")))
      case (Some(stream), Some(line)) => Some(Pair(stream, line))
      case _ => None
  }

  function PairOf(raw: string): Option<Pair>
  {
    match Json.Loads(raw)
    case Loaded(v) => FromRecord(v)
    case Refused(_) => None
  }

  function PairsOf(raws: seq<string>): Option<seq<Pair>>
  {
    if raws == [] then Some([])
    else if PairOf(raws[0]).None? then None
    else Prepend([PairOf(raws[0]).value], PairsOf(raws[1..]))
  }

  function Prepend(ps: seq<Pair>, more: Option<seq<Pair>>): Option<seq<Pair>>
  {
    match more
    case Some(rest) => Some(ps + rest)
    case None => None
  }

  /** The loop of `read_all` over the raw lines of a file. */
  method ReadFile(raws: seq<string>) returns (ps: Option<seq<Pair>>)
    ensures ps == PairsOf(raws)
    ensures ps.Some? <==> forall i :: 0 <= i < |raws| ==> PairOf(raws[i]).Some?
    ensures ps.Some? ==> |ps.value| == |raws| && forall i :: 0 <= i < |raws| ==> PairOf(raws[i]) == Some(ps.value[i])
  {
    var out: seq<Pair> := [];
    assert raws[0..] == raws;
    PrependNothing(PairsOf(raws));
    for i := 0 to |raws|
      invariant PairsOf(raws) == Prepend(out, PairsOf(raws[i..]))
      invariant |out| == i && forall k :: 0 <= k < i ==> PairOf(raws[k]) == Some(out[k])
    {
      var p := PairOf(raws[i]);
      assert raws[i..][0] == raws[i] && raws[i..][1..] == raws[i + 1..];
      if p.None? { return None; }
      PrependTwice(out, p.value, PairsOf(raws[i + 1..]));
      out := out + [p.value];
    }
    assert out + [] == out;
    ps := Some(out);
  }

  lemma PrependNothing(more: Option<seq<Pair>>)
    ensures Prepend([], more) == more
  {
    if more.Some? { assert [] + more.value == more.value; }
  }

  lemma PrependTwice(ps: seq<Pair>, p: Pair, more: Option<seq<Pair>>)
    ensures Prepend(ps, Prepend([p], more)) == Prepend(ps + [p], more)
  {
    if more.Some? { assert ps + ([p] + more.value) == ps + [p] + more.value; }
  }

  /** A line as `read_all` returns it. */
  function Shown(l: Line): Pair { Pair(Json.Str(Py(StreamName(l.stream))), Json.Str(Py(l.text))) }

  function AllShown(ls: seq<Line>): seq<Pair> { if ls == [] then [] else [Shown(ls[0])] + AllShown(ls[1..]) }

  lemma KeysDiffer()
    ensures Py("stream") != Py("line")
  {
    assert |Py("stream")| != |Py("line")|;
  }

  lemma RecordIsValue(l: Line)
    ensures Json.WellFormed(RecordOf(l))
  {
    KeysDiffer();
    PyIsTidy("stream");
    PyIsTidy("line");
    PyIsTidy(StreamName(l.stream));
    PyIsTidy(l.text);
  }

  lemma RecordIsShown(l: Line)
    ensures FromRecord(RecordOf(l)) == Some(Shown(l))
  {
    KeysDiffer();
    var d := RecordOf(l).entries;
    assert Lookup(d, Py("stream")) == Some(d[0].value);
    assert d[1..] == [d[1]] && Lookup([d[1]], Py("line")) == Some(d[1].value);
  }

  lemma FrameReadsBack(l: Line)
    ensures PairOf(Frame(l)) == Some(Shown(l))
  {
    RecordIsValue(l);
    RecordIsShown(l);
    Json.LoadsPrinted(RecordOf(l));
  }

  lemma FrameComesOff(l: Line, more: string)
    ensures Json.Lines(Frame(l) + more) == [Frame(l)] + Json.Lines(more)
  {
    RecordIsValue(l);
    Json.FrameOff(RecordOf(l), more);
  }

  /** Reading the file gives back exactly the lines appended, in their order, whatever characters they
      contain: a newline inside a record is escaped, so no line is torn and none runs into the next. */
  lemma {:induction false} FileReadsBack(ls: seq<Line>)
    ensures PairsOf(Json.Lines(FileText(ls))) == Some(AllShown(ls))
  {
    if ls != [] {
      FrameReadsBack(ls[0]);
      FrameComesOff(ls[0], FileText(ls[1..]));
      FileReadsBack(ls[1..]);
      FirstLine(Frame(ls[0]), Json.Lines(FileText(ls[1..])), ls);
    }
  }

  lemma FirstLine(raw: string, more: seq<string>, ls: seq<Line>)
    requires ls != [] && PairOf(raw) == Some(Shown(ls[0])) && PairsOf(more) == Some(AllShown(ls[1..]))
    ensures PairsOf([raw] + more) == Some(AllShown(ls))
  {
    assert ([raw] + more)[1..] == more;
  }

  /** Different logs read differently. */
  lemma {:induction false} ShownExactly(a: seq<Line>, b: seq<Line>)
    ensures AllShown(a) == AllShown(b) <==> a == b
  {
    if a != [] && b != [] && AllShown(a) == AllShown(b) {
      assert AllShown(a)[0] == Shown(a[0]) && AllShown(b)[0] == Shown(b[0]);
      LineShownExactly(a[0], b[0]);
      assert AllShown(a)[1..] == AllShown(a[1..]) && AllShown(b)[1..] == AllShown(b[1..]);
      ShownExactly(a[1..], b[1..]);
      assert a == [a[0]] + a[1..] && b == [b[0]] + b[1..];
    }
  }

  lemma LineShownExactly(a: Line, b: Line)
    requires Shown(a) == Shown(b)
    ensures a == b
  {
    CharsOfPy(a.text);
    CharsOfPy(b.text);
    CharsOfPy(StreamName(a.stream));
    CharsOfPy(StreamName(b.stream));
    assert "stdout"[3] != "stderr"[3];
  }
}
