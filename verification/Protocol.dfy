/** The frames of protocol.py: dataclasses to JSON lines and back.

    A frozen dataclass is a Record, its class and the value of each of its fields.  The program does not
    check field types, and neither does the model. */
module Protocol {
  import opened Common
  import opened Scalars
  import opened Json

  datatype Class =
    | Submit | Bump | Attach | Ps | Show | Cancel | Doctor | Retry | Prune | Lease | Release
    | EvictOllama | RestoreOllama
    | StateEvent | LogEvent | OllamaEvent | ResultEvent | ErrorEvent

  /** A field without a default must be given. */
  datatype Field = Field(name: string, default: Option<Value>)

  function Needed(name: string): Field { Field(name, None) }

  function Given(name: string, default: Value): Field { Field(name, Some(default)) }

  function Word(s: string): Value { Str(Py(s)) }

  const EMPTY := Str([])
  const NO := Bool(false)

  function Fields(c: Class): seq<Field>
  {
    match c
    case Submit => [Needed("cmd"), Needed("cwd"), Given("env", Obj([])), Given("tag", EMPTY),
                    Given("priority", Num("0")), Given("detach", NO), Given("next_", NO),
                    Given("description", EMPTY), Given("parent_id", EMPTY)]
    case Bump => [Needed("id")]
    case Attach => [Needed("id"), Given("follow", Bool(true)), Given("from_", Word("tail")),
                    Given("tail", Num("200"))]
    case Ps => [Given("tag", Null), Given("state", Null), Given("states", Arr([])), Given("since", Null)]
    case Show => [Needed("id")]
    case Cancel => [Needed("id"), Given("signal", Word("TERM")), Given("timeout", Num("10.0"))]
    case Doctor => [Given("fix", NO), Given("ids", Arr([])), Given("min_age_s", Num("60.0"))]
    case Retry => [Needed("id"), Given("force", NO)]
    case Prune => [Given("older_than_s", Num("0.0")), Given("states", Arr([])), Given("keep_tag", EMPTY),
                   Given("dry_run", NO)]
    case Lease => [Given("duration", EMPTY), Given("reason", EMPTY), Given("priority", Num("0"))]
    case Release => [Needed("lease_id")]
    case EvictOllama => []
    case RestoreOllama => []
    case StateEvent => [Needed("id"), Needed("state"), Given("position", Null), Given("pid", Null),
                        Given("started_at", Null), Given("exit_code", Null), Given("duration_s", Null),
                        Given("eta_running_s", Null), Given("eta_start_s", Null)]
    case LogEvent => [Needed("id"), Needed("stream"), Needed("line")]
    case OllamaEvent => [Needed("action"), Given("models", Arr([]))]
    case ResultEvent => [Given("payload", Obj([]))]
    case ErrorEvent => [Needed("message"), Given("code", Word("error"))]
  }

  predicate IsEvent(c: Class) { c.StateEvent? || c.LogEvent? || c.OllamaEvent? || c.ResultEvent? || c.ErrorEvent? }

  /** The `op` of a request, the `type` of an event. */
  function Tag(c: Class): string
  {
    match c
    case Submit => "submit"
    case Bump => "bump"
    case Attach => "attach"
    case Ps => "ps"
    case Show => "show"
    case Cancel => "cancel"
    case Doctor => "doctor"
    case Retry => "retry"
    case Prune => "prune"
    case Lease => "lease"
    case Release => "release"
    case EvictOllama => "evict_ollama"
    case RestoreOllama => "restore_ollama"
    case StateEvent => "state"
    case LogEvent => "log"
    case OllamaEvent => "ollama"
    case ResultEvent => "result"
    case ErrorEvent => "error"
  }

  function RequestClass(op: string): Option<Class>
  {
    match op
    case "submit" => Some(Submit)
    case "bump" => Some(Bump)
    case "attach" => Some(Attach)
    case "ps" => Some(Ps)
    case "show" => Some(Show)
    case "cancel" => Some(Cancel)
    case "doctor" => Some(Doctor)
    case "retry" => Some(Retry)
    case "prune" => Some(Prune)
    case "lease" => Some(Lease)
    case "release" => Some(Release)
    case "evict_ollama" => Some(EvictOllama)
    case "restore_ollama" => Some(RestoreOllama)
    case _ => None
  }

  function EventClass(tag: string): Option<Class>
  {
    match tag
    case "state" => Some(StateEvent)
    case "log" => Some(LogEvent)
    case "ollama" => Some(OllamaEvent)
    case "result" => Some(ResultEvent)
    case "error" => Some(ErrorEvent)
    case _ => None
  }

  /** Requests and events have tables and tag keys of their own. */
  datatype Side = Requests | Events

  function Key(side: Side): string { if side.Requests? then "op" else "type" }

  function ClassOf(side: Side, tag: string): Option<Class>
  {
    if side.Requests? then RequestClass(tag) else EventClass(tag)
  }

  predicate On(side: Side, c: Class) { side.Events? <==> IsEvent(c) }

  function Names(c: Class): set<string> { set i | 0 <= i < |Fields(c)| :: Fields(c)[i].name }

  datatype Record = Record(cls: Class, values: map<string, Value>)

  predicate Valid(r: Record) { r.values.Keys == Names(r.cls) }

  /** Its values are such as JSON can carry. */
  ghost predicate Carriable(r: Record) { forall k :: k in r.values ==> WellFormed(r.values[k]) }

  // ---- encoding ------------------------------------------------------------------------------------

  /** The attributes that end in an underscore are keywords of Python or clash with a builtin. */
  function Wire(name: string): string
  {
    if name == "from_" then "from" else if name == "next_" then "next" else name
  }

  /** `_dump`: the fields in the order of their declaration, under their wire names. */
  function Dump(fs: seq<Field>, values: map<string, Value>): (d: seq<Entry>)
    requires forall i :: 0 <= i < |fs| ==> fs[i].name in values
    ensures |d| == |fs|
    ensures forall i :: 0 <= i < |fs| ==> d[i] == Entry(Py(Wire(fs[i].name)), values[fs[i].name])
  {
    if fs == [] then [] else [Entry(Py(Wire(fs[0].name)), values[fs[0].name])] + Dump(fs[1..], values)
  }

  function Payload(side: Side, r: Record): seq<Entry>
    requires Valid(r)
  {
    NamesOf(r.cls);
    [Entry(Py(Key(side)), Word(Tag(r.cls)))] + Dump(Fields(r.cls), r.values)
  }

  function Encoded(side: Side, r: Record): string
    requires Valid(r)
  {
    Print(Obj(Payload(side, r))) + "\n"
  }

  lemma NamesOf(c: Class)
    ensures forall i :: 0 <= i < |Fields(c)| ==> Fields(c)[i].name in Names(c)
  {
  }

  // ---- decoding ------------------------------------------------------------------------------------

  /** BadJson and Unknown are a ProtocolError; the others are Python's own ValueError, AttributeError and
      TypeError. */
  datatype Decoded =
    | Ok(r: Record)
    | BadJson
    | Unknown(tag: Value)
    | TooManyDigits
    | NotADict
    | Unhashable
    | Missing

  /** The dict by its keys, without those that have surrogates: no tag or field is called like that. */
  function AsMap(d: seq<Entry>): map<string, Value>
  {
    if d == [] then map[] else
      var e, m := d[|d| - 1], AsMap(d[..|d| - 1]);
      if Chars(e.key).Some? then m[Chars(e.key).value := e.value] else m
  }

  function GetOr(m: map<string, Value>, key: string, default: Value): Value { if key in m then m[key] else default }

  /** kwargs[to] = kwargs.pop(from) */
  function Renamed(m: map<string, Value>, from: string, to: string): map<string, Value>
  {
    if from in m then (m - {from})[to := m[from]] else m
  }

  function Kwargs(side: Side, m: map<string, Value>): map<string, Value>
  {
    if side.Requests? then Renamed(Renamed(m - {"op"}, "from", "from_"), "next", "next_") else m - {"type"}
  }

  /** `_load`: keys that are no field are dropped, fields that are not given take their default. */
  function Load(c: Class, kwargs: map<string, Value>): Decoded
  {
    if Lacks(Fields(c), kwargs) then Missing else Ok(Record(c, Filled(Fields(c), kwargs)))
  }

  predicate Lacks(fs: seq<Field>, kwargs: map<string, Value>)
  {
    exists i :: 0 <= i < |fs| && fs[i].default.None? && fs[i].name !in kwargs
  }

  function Filled(fs: seq<Field>, kwargs: map<string, Value>): map<string, Value>
  {
    if fs == [] then map[] else
      Filled(fs[1..], kwargs)[fs[0].name := GetOr(kwargs, fs[0].name, fs[0].default.GetOr(Null))]
  }

  /** The class that a tag names. */
  function Named(side: Side, tag: Value): Option<Class>
  {
    if tag.Str? && Chars(tag.s).Some? then ClassOf(side, Chars(tag.s).value) else None
  }

  /** Which class a dict asks for. */
  function Asked(side: Side, m: map<string, Value>): Option<Class> { Named(side, GetOr(m, Key(side), Null)) }

  function FromDict(side: Side, m: map<string, Value>): Decoded
  {
    match GetOr(m, Key(side), Null)
    case Arr(_) => Unhashable
    case Obj(_) => Unhashable
    case other => if Asked(side, m).Some? then Load(Asked(side, m).value, Kwargs(side, m)) else Unknown(other)
  }

  function Decode(side: Side, line: string): Decoded
  {
    match Loads(line)
    case Refused(fault) => if fault.Syntax? then BadJson else TooManyDigits
    case Loaded(v) => if v.Obj? then FromDict(side, AsMap(v.entries)) else NotADict
  }

  // ---- the two pairs of functions of the program ---------------------------------------------------

  method EncodeRequest(r: Record) returns (line: string)
    requires Valid(r) && On(Requests, r.cls)
    ensures line == Encoded(Requests, r)
  {
    var payload := [Entry(Py("op"), Word(Tag(r.cls)))];
    NamesOf(r.cls);
    PayloadIsDict(Requests, r);
    PutAllNew(payload, Dump(Fields(r.cls), r.values));
    payload := PutAll(payload, Dump(Fields(r.cls), r.values));
    line := Print(Obj(payload)) + "\n";
  }

  method DecodeRequest(line: string) returns (d: Decoded)
    ensures d == Decode(Requests, line)
  {
    var obj := Loads(line);
    if obj.Refused? { return if obj.fault.Syntax? then BadJson else TooManyDigits; }
    if !obj.value.Obj? { return NotADict; }
    var m := AsMap(obj.value.entries);
    var op := GetOr(m, "op", Null);
    if op.Arr? || op.Obj? { return Unhashable; }
    var cls := Named(Requests, op);
    if cls.None? { return Unknown(op); }
    var kwargs := m - {"op"};
    if "from" in kwargs { kwargs := (kwargs - {"from"})["from_" := kwargs["from"]]; }
    if "next" in kwargs { kwargs := (kwargs - {"next"})["next_" := kwargs["next"]]; }
    d := Load(cls.value, kwargs);
  }

  method EncodeEvent(r: Record) returns (line: string)
    requires Valid(r) && On(Events, r.cls)
    ensures line == Encoded(Events, r)
  {
    var payload := [Entry(Py("type"), Word(Tag(r.cls)))];
    NamesOf(r.cls);
    PayloadIsDict(Events, r);
    PutAllNew(payload, Dump(Fields(r.cls), r.values));
    payload := PutAll(payload, Dump(Fields(r.cls), r.values));
    line := Print(Obj(payload)) + "\n";
  }

  // ---- what the tables promise ---------------------------------------------------------------------

  /** Op and type names are read back, and no class of one side answers on the other. */
  lemma TablesAgree(side: Side, c: Class)
    ensures On(side, c) ==> ClassOf(side, Tag(c)) == Some(c) && Named(side, Word(Tag(c))) == Some(c)
  {
    CharsOfPy(Tag(c));
  }

  /** No two fields share a wire name. */
  predicate WiresApart(c: Class)
  {
    forall i, j :: 0 <= i < j < |Fields(c)| ==> Wire(Fields(c)[i].name) != Wire(Fields(c)[j].name)
  }

  /** No field is called like the tag, and none has the wire name of another attribute. */
  predicate Untagged(c: Class)
  {
    forall i :: 0 <= i < |Fields(c)| ==>
      && Fields(c)[i].name != "op" && Fields(c)[i].name != "type"
      && Fields(c)[i].name != "from" && Fields(c)[i].name != "next"
  }

  predicate Plainly(c: Class)
  {
    forall i :: 0 <= i < |Fields(c)| ==> Fields(c)[i].name != "from_" && Fields(c)[i].name != "next_"
  }

  lemma SubmitApart()
    ensures WiresApart(Submit)
  {
    forall i, j | 0 <= i < j < |Fields(Submit)|
      ensures Wire(Fields(Submit)[i].name) != Wire(Fields(Submit)[j].name)
    {
      SubmitWire(i);
      SubmitWire(j);
      SignsApart(i, j);
    }
  }

  /** The length and the second character tell the fields of a submit request apart. */
  const SIGNS: seq<(int, char)> :=
    [(3, 'm'), (3, 'w'), (3, 'n'), (3, 'a'), (8, 'r'), (6, 'e'), (4, 'e'), (11, 'e'), (9, 'a')]

  lemma SignsApart(i: nat, j: nat)
    requires i < j < |SIGNS|
    ensures SIGNS[i] != SIGNS[j]
  {
  }

  lemma SubmitWire(i: nat)
    requires i < |Fields(Submit)|
    ensures |Fields(Submit)| == |SIGNS|
    ensures var w := Wire(Fields(Submit)[i].name); |w| > 1 && (|w|, w[1]) == SIGNS[i]
  {
  }

  lemma SubmitUntagged()
    ensures Untagged(Submit)
  {
  }

  lemma StateEventApart()
    ensures WiresApart(StateEvent)
  {
  }

  lemma StateEventUntagged()
    ensures Untagged(StateEvent) && Plainly(StateEvent)
  {
  }

  lemma SmallApart(c: Class)
    requires |Fields(c)| <= 2
    ensures WiresApart(c)
  {
  }

  lemma ThreeApart(c: Class)
    requires c.Cancel? || c.Doctor? || c.Lease? || c.LogEvent?
    ensures WiresApart(c)
  {
  }

  lemma AttachApart()
    ensures WiresApart(Attach) && Untagged(Attach)
  {
  }

  lemma FourApart(c: Class)
    requires c.Ps? || c.Prune?
    ensures WiresApart(c)
  {
  }

  lemma RequestsUntagged(c: Class)
    requires !IsEvent(c) && !c.Submit? && !c.Attach?
    ensures Untagged(c)
  {
  }

  lemma EventsUntagged(c: Class)
    requires IsEvent(c) && !c.StateEvent?
    ensures Untagged(c) && Plainly(c)
  {
  }

  lemma FieldsAreApart(c: Class)
    ensures WiresApart(c) && Untagged(c) && (IsEvent(c) ==> Plainly(c))
  {
    match c {
      case Submit => SubmitApart(); SubmitUntagged();
      case StateEvent => StateEventApart(); StateEventUntagged();
      case Attach => AttachApart();
      case _ =>
        if IsEvent(c) { EventsUntagged(c); } else { RequestsUntagged(c); }
        if c.Ps? || c.Prune? { FourApart(c); }
        else if |Fields(c)| == 3 { ThreeApart(c); }
        else { SmallApart(c); }
    }
  }

  lemma PyIsExact(a: string, b: string)
    ensures Py(a) == Py(b) <==> a == b
  {
    CharsOfPy(a);
    CharsOfPy(b);
  }

  lemma DumpIsDict(fs: seq<Field>, values: map<string, Value>, key: string, tag: string)
    requires forall i :: 0 <= i < |fs| ==> fs[i].name in values
    requires forall i, j :: 0 <= i < j < |fs| ==> Wire(fs[i].name) != Wire(fs[j].name)
    requires forall i :: 0 <= i < |fs| ==> Wire(fs[i].name) != key
    ensures Distinct([Entry(Py(key), Word(tag))] + Dump(fs, values))
  {
    var d := [Entry(Py(key), Word(tag))] + Dump(fs, values);
    forall i, j | 0 <= i < j < |d| ensures d[i].key != d[j].key {
      PyIsExact(NameAt(fs, key, i), NameAt(fs, key, j));
      EntryAt(fs, values, key, tag, i);
      EntryAt(fs, values, key, tag, j);
    }
  }

  function NameAt(fs: seq<Field>, key: string, i: nat): string
    requires i <= |fs|
  {
    if i == 0 then key else Wire(fs[i - 1].name)
  }

  lemma EntryAt(fs: seq<Field>, values: map<string, Value>, key: string, tag: string, i: nat)
    requires i <= |fs| && forall i :: 0 <= i < |fs| ==> fs[i].name in values
    ensures ([Entry(Py(key), Word(tag))] + Dump(fs, values))[i].key == Py(NameAt(fs, key, i))
  {
  }

  lemma PayloadIsDict(side: Side, r: Record)
    requires Valid(r)
    ensures Distinct(Payload(side, r))
  {
    NamesOf(r.cls);
    FieldsAreApart(r.cls);
    DumpIsDict(Fields(r.cls), r.values, Key(side), Tag(r.cls));
  }

  lemma DumpIsOk(fs: seq<Field>, values: map<string, Value>, key: string, tag: string)
    requires forall i :: 0 <= i < |fs| ==> fs[i].name in values && WellFormed(values[fs[i].name])
    ensures EntriesOk([Entry(Py(key), Word(tag))] + Dump(fs, values))
  {
    var d := [Entry(Py(key), Word(tag))] + Dump(fs, values);
    PyIsTidy(key);
    PyIsTidy(tag);
    forall i | 0 <= i < |d| ensures Tidy(d[i].key) && WellFormed(d[i].value) {
      if i > 0 {
        assert d[i] == Entry(Py(Wire(fs[i - 1].name)), values[fs[i - 1].name]);
        PyIsTidy(Wire(fs[i - 1].name));
      }
    }
  }

  lemma PayloadIsWellFormed(side: Side, r: Record)
    requires Valid(r) && Carriable(r)
    ensures WellFormed(Obj(Payload(side, r)))
  {
    PayloadIsDict(side, r);
    NamesOf(r.cls);
    DumpIsOk(Fields(r.cls), r.values, Key(side), Tag(r.cls));
  }

  // ---- decoding what was encoded -------------------------------------------------------------------

  lemma {:induction false} AsMapFinds(d: seq<Entry>, i: nat, name: string)
    requires Distinct(d) && i < |d| && d[i].key == Py(name)
    ensures name in AsMap(d) && AsMap(d)[name] == d[i].value
  {
    var last := d[|d| - 1];
    CharsOfPy(name);
    if i < |d| - 1 {
      AsMapFinds(d[..|d| - 1], i, name);
      assert last.key != Py(name);
      PyOfChars(last.key);
    }
  }

  lemma {:induction false} FilledHas(fs: seq<Field>, kwargs: map<string, Value>, i: nat)
    requires i < |fs| && forall j :: i < j < |fs| ==> fs[j].name != fs[i].name
    requires forall j :: 0 <= j < i ==> fs[j].name != fs[i].name
    ensures var name := fs[i].name;
            name in Filled(fs, kwargs)
            && Filled(fs, kwargs)[name] == GetOr(kwargs, name, fs[i].default.GetOr(Null))
  {
    if i > 0 { FilledHas(fs[1..], kwargs, i - 1); }
  }

  lemma {:induction false} FilledKeys(fs: seq<Field>, kwargs: map<string, Value>)
    ensures Filled(fs, kwargs).Keys == set i | 0 <= i < |fs| :: fs[i].name
  {
    if fs != [] {
      FilledKeys(fs[1..], kwargs);
      assert forall i :: 1 <= i < |fs| ==> fs[i] == fs[1..][i - 1];
      assert forall i :: 0 <= i < |fs[1..]| ==> fs[1..][i] == fs[i + 1];
    }
  }

  /** Where the value of a field comes from: its wire name first, then the attribute name itself. */
  function Found(m: map<string, Value>, name: string): Option<Value>
  {
    if Wire(name) in m then Some(m[Wire(name)]) else if name in m then Some(m[name]) else None
  }

  predicate Free(name: string) { name != "op" && name != "type" && name != "from" && name != "next" }

  lemma KwargsFind(side: Side, m: map<string, Value>, name: string)
    requires Free(name) && (side.Events? ==> Wire(name) == name)
    ensures name in Kwargs(side, m) <==> Found(m, name).Some?
    ensures name in Kwargs(side, m) ==> Kwargs(side, m)[name] == Found(m, name).value
  {
  }

  ghost predicate Complete(fs: seq<Field>, m: map<string, Value>)
  {
    forall i :: 0 <= i < |fs| && fs[i].default.None? ==> Found(m, fs[i].name).Some?
  }

  /** The record has exactly the fields of its class, each with the value found or else its default. */
  ghost predicate Reads(c: Class, m: map<string, Value>, r: Record)
  {
    r.cls == c && r.values.Keys == Names(c) && ReadsAll(Fields(c), m, r.values)
  }

  ghost predicate ReadsAll(fs: seq<Field>, m: map<string, Value>, values: map<string, Value>)
  {
    forall i :: 0 <= i < |fs| ==>
      fs[i].name in values && values[fs[i].name] == Found(m, fs[i].name).GetOr(fs[i].default.GetOr(Null))
  }

  /** The keyword arguments hold, for each of these fields, what the dict holds for it. */
  ghost predicate Passes(fs: seq<Field>, m: map<string, Value>, kwargs: map<string, Value>)
  {
    forall i :: 0 <= i < |fs| ==>
      && (fs[i].name in kwargs <==> Found(m, fs[i].name).Some?)
      && (fs[i].name in kwargs ==> kwargs[fs[i].name] == Found(m, fs[i].name).value)
  }

  lemma KwargsPass(side: Side, fs: seq<Field>, m: map<string, Value>)
    requires forall i :: 0 <= i < |fs| ==> Free(fs[i].name) && (side.Events? ==> Wire(fs[i].name) == fs[i].name)
    ensures Passes(fs, m, Kwargs(side, m))
  {
    forall i | 0 <= i < |fs|
      ensures fs[i].name in Kwargs(side, m) <==> Found(m, fs[i].name).Some?
      ensures fs[i].name in Kwargs(side, m) ==> Kwargs(side, m)[fs[i].name] == Found(m, fs[i].name).value
    {
      KwargsFind(side, m, fs[i].name);
    }
  }

  lemma FilledReads(fs: seq<Field>, m: map<string, Value>, kwargs: map<string, Value>)
    requires Passes(fs, m, kwargs)
    requires forall i, j :: 0 <= i < j < |fs| ==> fs[i].name != fs[j].name
    ensures Lacks(fs, kwargs) <==> !Complete(fs, m)
    ensures ReadsAll(fs, m, Filled(fs, kwargs))
  {
    forall i | 0 <= i < |fs|
      ensures fs[i].name in Filled(fs, kwargs)
      ensures Filled(fs, kwargs)[fs[i].name] == Found(m, fs[i].name).GetOr(fs[i].default.GetOr(Null))
    {
      FilledHas(fs, kwargs, i);
    }
  }

  lemma NamesApart(c: Class)
    ensures forall i, j :: 0 <= i < j < |Fields(c)| ==> Fields(c)[i].name != Fields(c)[j].name
    ensures forall i :: 0 <= i < |Fields(c)| ==>
              Free(Fields(c)[i].name) && (IsEvent(c) ==> Wire(Fields(c)[i].name) == Fields(c)[i].name)
  {
    FieldsAreApart(c);
  }

  lemma LoadReads(side: Side, c: Class, m: map<string, Value>)
    requires On(side, c)
    ensures Load(c, Kwargs(side, m)).Ok? <==> Complete(Fields(c), m)
    ensures Load(c, Kwargs(side, m)).Ok? ==> Reads(c, m, Load(c, Kwargs(side, m)).r)
  {
    var fs := Fields(c);
    NamesApart(c);
    KwargsPass(side, fs, m);
    FilledReads(fs, m, Kwargs(side, m));
    FilledKeys(fs, Kwargs(side, m));
  }

  lemma ClassesOnSide(side: Side, tag: string)
    ensures ClassOf(side, tag).Some? ==> On(side, ClassOf(side, tag).value)
  {
  }

  /** A line is accepted exactly when it is a JSON object with a known tag and every field that has no
      default; what it then means is fixed, whatever other keys it carries. */
  lemma DecodesExactly(side: Side, line: string)
    ensures Decode(side, line).Ok? <==>
              && Loads(line).Loaded? && Loads(line).value.Obj?
              && var m := AsMap(Loads(line).value.entries);
                 Asked(side, m).Some? && Complete(Fields(Asked(side, m).value), m)
    ensures Decode(side, line).Ok? ==>
              var m := AsMap(Loads(line).value.entries); Reads(Asked(side, m).value, m, Decode(side, line).r)
  {
    var v := Loads(line);
    if v.Loaded? && v.value.Obj? {
      DictReads(side, AsMap(v.value.entries));
    }
  }

  lemma DictReads(side: Side, m: map<string, Value>)
    ensures FromDict(side, m).Ok? <==> Asked(side, m).Some? && Complete(Fields(Asked(side, m).value), m)
    ensures FromDict(side, m).Ok? ==> Reads(Asked(side, m).value, m, FromDict(side, m).r)
  {
    if Asked(side, m).Some? {
      ClassesOnSide(side, Chars(m[Key(side)].s).value);
      LoadReads(side, Asked(side, m).value, m);
    }
  }

  /** The dict says what the record says, under the wire names. */
  ghost predicate Carries(m: map<string, Value>, r: Record)
    requires Valid(r)
  {
    forall i :: 0 <= i < |Fields(r.cls)| ==>
      Wire(Fields(r.cls)[i].name) in m && Fields(r.cls)[i].name in r.values
      && m[Wire(Fields(r.cls)[i].name)] == r.values[Fields(r.cls)[i].name]
  }

  lemma SameRecord(c: Class, m: map<string, Value>, r: Record, q: Record)
    requires Valid(r) && r.cls == c && Carries(m, r) && Reads(c, m, q)
    ensures q == r
  {
    forall k | k in Names(c) ensures q.values[k] == r.values[k] {
      var i :| 0 <= i < |Fields(c)| && Fields(c)[i].name == k;
    }
    assert q.values == r.values;
  }

  lemma CarriedIsRead(side: Side, m: map<string, Value>, r: Record)
    requires Valid(r) && On(side, r.cls) && Carries(m, r)
    requires Key(side) in m && m[Key(side)] == Word(Tag(r.cls))
    ensures FromDict(side, m) == Ok(r)
  {
    TablesAgree(side, r.cls);
    DictReads(side, m);
    SameRecord(r.cls, m, r, FromDict(side, m).r);
  }

  lemma PayloadCarries(side: Side, r: Record, d: seq<Entry>)
    requires Valid(r) && Distinct(d) && forall e :: e in Payload(side, r) ==> e in d
    ensures Carries(AsMap(d), r)
    ensures Key(side) in AsMap(d) && AsMap(d)[Key(side)] == Word(Tag(r.cls))
  {
    NamesOf(r.cls);
    EntryFound(Payload(side, r), d, 0, Key(side));
    forall i | 0 <= i < |Fields(r.cls)|
      ensures Wire(Fields(r.cls)[i].name) in AsMap(d)
              && AsMap(d)[Wire(Fields(r.cls)[i].name)] == r.values[Fields(r.cls)[i].name]
    {
      FieldCarried(side, r, d, i);
    }
  }

  lemma FieldCarried(side: Side, r: Record, d: seq<Entry>, i: nat)
    requires Valid(r) && Distinct(d) && (forall e :: e in Payload(side, r) ==> e in d) && i < |Fields(r.cls)|
    ensures var f := Fields(r.cls)[i];
            f.name in r.values && Wire(f.name) in AsMap(d) && AsMap(d)[Wire(f.name)] == r.values[f.name]
  {
    FieldAt(side, r, i);
    EntryFound(Payload(side, r), d, i + 1, Wire(Fields(r.cls)[i].name));
  }

  lemma FieldAt(side: Side, r: Record, i: nat)
    requires Valid(r) && i < |Fields(r.cls)|
    ensures Fields(r.cls)[i].name in r.values && |Payload(side, r)| > i + 1
    ensures Payload(side, r)[i + 1] == Entry(Py(Wire(Fields(r.cls)[i].name)), r.values[Fields(r.cls)[i].name])
  {
    NamesOf(r.cls);
    DumpAt(Fields(r.cls), r.values, Entry(Py(Key(side)), Word(Tag(r.cls))), i);
  }

  lemma DumpAt(fs: seq<Field>, values: map<string, Value>, first: Entry, i: nat)
    requires i < |fs| && forall j :: 0 <= j < |fs| ==> fs[j].name in values
    ensures |[first] + Dump(fs, values)| > i + 1
    ensures ([first] + Dump(fs, values))[i + 1] == Entry(Py(Wire(fs[i].name)), values[fs[i].name])
  {
    var entries := Dump(fs, values);
    assert ([first] + entries)[i + 1] == entries[i];
  }

  /** The two fields whose attribute is no Python name: on the wire they are `from` and `next`. */
  lemma KeywordsTranslated(r: Record)
    requires Valid(r) && (r.cls.Attach? || r.cls.Submit?)
    ensures |Payload(Requests, r)| == |Fields(r.cls)| + 1
    ensures r.cls.Attach? ==>
      && Payload(Requests, r)[0] == Entry(Py("op"), Word("attach"))
      && "from_" in r.values && Payload(Requests, r)[3] == Entry(Py("from"), r.values["from_"])
    ensures r.cls.Submit? ==>
      && Payload(Requests, r)[0] == Entry(Py("op"), Word("submit"))
      && "next_" in r.values && Payload(Requests, r)[7] == Entry(Py("next"), r.values["next_"])
  {
    NamesOf(r.cls);
    FieldAt(Requests, r, if r.cls.Attach? then 2 else 6);
  }

  lemma EntryFound(p: seq<Entry>, d: seq<Entry>, j: nat, name: string)
    requires Distinct(d) && j < |p| && p[j].key == Py(name) && forall e :: e in p ==> e in d
    ensures name in AsMap(d) && AsMap(d)[name] == p[j].value
  {
    assert p[j] in d;
    var i :| 0 <= i < |d| && d[i] == p[j];
    AsMapFinds(d, i, name);
  }

  /** Decoding undoes encoding for every request and every event, and still does when the object was
      reordered on the way or carries other keys: those of a newer version, or `from_` beside `from`. */
  lemma ExtraKeysAreIgnored(side: Side, r: Record, d: seq<Entry>)
    requires Valid(r) && On(side, r.cls) && WellFormed(Obj(d))
    requires forall e :: e in Payload(side, r) ==> e in d
    ensures Decode(side, Print(Obj(d)) + "\n") == Ok(r)
  {
    LoadsPrinted(Obj(d));
    PayloadCarries(side, r, d);
    CarriedIsRead(side, AsMap(d), r);
  }

  /** Decoding an encoded request or event gives back the original exactly when JSON can carry its values. */
  lemma DecodeEncoded(side: Side, r: Record)
    requires Valid(r) && On(side, r.cls)
    ensures Decode(side, Encoded(side, r)) == Ok(r) <==> Carriable(r)
  {
    if Carriable(r) {
      PayloadIsWellFormed(side, r);
      ExtraKeysAreIgnored(side, r, Payload(side, r));
    }
    if Decode(side, Encoded(side, r)) == Ok(r) { DecodedIsCarriable(side, Encoded(side, r)); }
  }

  /** A request that is not what it was when it arrives. */
  lemma SurrogatesAreNotCarried()
    ensures var r := Record(Show, map["id" := Str([0xD800, 0xDC00])]);
            Valid(r) && Decode(Requests, Encoded(Requests, r)) != Ok(r)
  {
    var t: Text := [0xD800, 0xDC00];
    var r := Record(Show, map["id" := Str(t)]);
    NamesOf(Show);
    assert Fields(Show)[0].name == "id" && forall k :: k in Names(Show) ==> k == "id";
    assert High(t[0]) && Low(t[1]);
    assert "id" in r.values && !WellFormed(r.values["id"]);
    DecodeEncoded(Requests, r);
  }

  // ---- whatever is decoded can be encoded ----------------------------------------------------------

  lemma {:induction false} AsMapIsWellFormed(d: seq<Entry>)
    requires EntriesOk(d)
    ensures forall k :: k in AsMap(d) ==> WellFormed(AsMap(d)[k])
  {
    if d != [] { AsMapIsWellFormed(d[..|d| - 1]); }
  }

  predicate IsDefault(v: Value)
  {
    v == Null || v == NO || v == Bool(true) || v == Arr([]) || v == Obj([])
    || v == EMPTY || v == Word("TERM") || v == Word("tail") || v == Word("error")
    || v == Num("0") || v == Num("200") || v == Num("0.0") || v == Num("10.0") || v == Num("60.0")
  }

  lemma DefaultsAreListed(c: Class, i: nat)
    requires i < |Fields(c)|
    ensures IsDefault(Fields(c)[i].default.GetOr(Null))
  {
  }

  lemma DefaultIsWellFormed(v: Value)
    requires IsDefault(v)
    ensures WellFormed(v)
  {
    if v.Str? {
      PyIsTidy("TERM");
      PyIsTidy("tail");
      PyIsTidy("error");
    } else if v.Num? {
      DefaultNumber(v.literal);
    }
  }

  lemma DefaultNumber(literal: string)
    requires literal == "0" || literal == "200" || literal == "0.0" || literal == "10.0" || literal == "60.0"
    ensures IsNumber(literal) && !TooLong(literal)
  {
    if |literal| == 1 || literal == "200" {
      WholeIsNumber(literal);
    } else {
      assert literal == literal[..|literal| - 2] + ".0";
      DecimalIsNumber(literal[..|literal| - 2]);
    }
  }

  /** A decoded record has the fields of its class and values that JSON can carry, so it can be passed on:
      encoding it and decoding it again changes nothing. */
  lemma DecodedIsCarriable(side: Side, line: string)
    ensures Decode(side, line).Ok? ==>
              var r := Decode(side, line).r; Valid(r) && On(side, r.cls) && Carriable(r)
  {
    if Decode(side, line).Ok? {
      DecodesExactly(side, line);
      LoadedIsWellFormed(line);
      var m, r := AsMap(Loads(line).value.entries), Decode(side, line).r;
      AsMapIsWellFormed(Loads(line).value.entries);
      ClassesOnSide(side, Chars(m[Key(side)].s).value);
      ReadIsCarriable(r.cls, m, r);
    }
  }

  lemma FoundIsWellFormed(f: Field, m: map<string, Value>)
    requires WellFormed(f.default.GetOr(Null)) && forall k :: k in m ==> WellFormed(m[k])
    ensures WellFormed(Found(m, f.name).GetOr(f.default.GetOr(Null)))
  {
  }

  lemma ReadIsCarriable(c: Class, m: map<string, Value>, r: Record)
    requires Reads(c, m, r) && forall k :: k in m ==> WellFormed(m[k])
    ensures Carriable(r)
  {
    var fs := Fields(c);
    forall k | k in r.values ensures WellFormed(r.values[k]) {
      var i := FieldNamed(c, k);
      DefaultsAreListed(c, i);
      DefaultIsWellFormed(fs[i].default.GetOr(Null));
      FoundIsWellFormed(fs[i], m);
    }
  }

  lemma FieldNamed(c: Class, name: string) returns (i: nat)
    requires name in Names(c)
    ensures i < |Fields(c)| && Fields(c)[i].name == name
  {
    i :| 0 <= i < |Fields(c)| && Fields(c)[i].name == name;
  }

  lemma DecodedPassesOn(side: Side, line: string)
    ensures Decode(side, line).Ok? ==>
              && Valid(Decode(side, line).r)
              && Decode(side, Encoded(side, Decode(side, line).r)) == Decode(side, line)
  {
    DecodedIsCarriable(side, line);
    if Decode(side, line).Ok? { DecodeEncoded(side, Decode(side, line).r); }
  }

  // ---- refusals ------------------------------------------------------------------------------------

  predicate IsProtocolError(d: Decoded) { d.BadJson? || d.Unknown? }

  /** A refused line is a ProtocolError exactly when it is no JSON, or an object whose tag is a scalar that
      names no class.  Other malformed frames escape as Python's own errors. */
  lemma RefusalsExactly(side: Side, line: string)
    ensures IsProtocolError(Decode(side, line)) <==>
              match Loads(line)
              case Refused(fault) => fault.Syntax?
              case Loaded(v) =>
                v.Obj? && var m := AsMap(v.entries);
                          Asked(side, m).None? && !(Key(side) in m && (m[Key(side)].Arr? || m[Key(side)].Obj?))
  {
  }

  /** "[]" and "NaN" are malformed frames, and no ProtocolError. */
  lemma MalformedEscapes()
    ensures Decode(Requests, "[]\n") == NotADict && Decode(Requests, "NaN\n") == NotADict
    ensures !IsProtocolError(NotADict)
  {
    LoadsPrinted(Arr([]));
    assert Print(Arr([])) + "\n" == "[]\n";
    LoadsPrinted(NaN);
    assert Print(NaN) + "\n" == "NaN\n";
  }

  // ---- a stream of frames --------------------------------------------------------------------------

  function AllEncoded(side: Side, rs: seq<Record>): seq<string>
    requires forall i :: 0 <= i < |rs| ==> Valid(rs[i])
  {
    if rs == [] then [] else [Encoded(side, rs[0])] + AllEncoded(side, rs[1..])
  }

  function AllDecoded(side: Side, lines: seq<string>): seq<Decoded>
  {
    if lines == [] then [] else [Decode(side, lines[0])] + AllDecoded(side, lines[1..])
  }

  function AllOk(rs: seq<Record>): seq<Decoded> { if rs == [] then [] else [Ok(rs[0])] + AllOk(rs[1..]) }

  lemma EncodedComesOff(side: Side, r: Record, more: string)
    requires Valid(r) && Carriable(r)
    ensures Lines(Encoded(side, r) + more) == [Encoded(side, r)] + Lines(more)
  {
    PayloadIsWellFormed(side, r);
    FrameOff(Obj(Payload(side, r)), more);
  }

  lemma DecodedFirst(side: Side, line: string, lines: seq<string>)
    ensures AllDecoded(side, [line] + lines) == [Decode(side, line)] + AllDecoded(side, lines)
  {
    assert ([line] + lines)[1..] == lines;
  }

  /** What one end writes is what the other end reads, frame for frame: the written text splits at its
      newlines into the frames again, and each decodes to its record. */
  lemma {:induction false} StreamRoundTrip(side: Side, rs: seq<Record>)
    requires forall i :: 0 <= i < |rs| ==> Valid(rs[i]) && On(side, rs[i].cls) && Carriable(rs[i])
    ensures AllDecoded(side, Lines(Concat(AllEncoded(side, rs)))) == AllOk(rs)
  {
    if rs != [] {
      var lines := AllEncoded(side, rs[1..]);
      EncodedComesOff(side, rs[0], Concat(lines));
      DecodeEncoded(side, rs[0]);
      StreamRoundTrip(side, rs[1..]);
      DecodedFirst(side, Encoded(side, rs[0]), Lines(Concat(lines)));
    }
  }
}
