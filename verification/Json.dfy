/** JSON values as Python's `json` writes and reads them: `dumps` with its default settings, and `loads`. */
module Json {
  import opened Scalars

  datatype Value =
    | Null
    | Bool(b: bool)
    | Num(literal: string)
    | NaN
    | Infinity(negative: bool)
    | Str(s: Text)
    | Arr(items: seq<Value>)
    | Obj(entries: seq<Entry>)

  /** A dict keeps its keys in the order in which they were first put in. */
  datatype Entry = Entry(key: Text, value: Value)

  predicate Distinct(d: seq<Entry>) { forall i, j :: 0 <= i < j < |d| ==> d[i].key != d[j].key }

  /** No dict has a key twice, a number is one that `int` or `float` reads, and no string has a high
      surrogate right before a low one.  Of the values that `dumps` can print only the last may fail. */
  ghost predicate WellFormed(v: Value)
  {
    match v
    case Num(literal) => IsNumber(literal) && !TooLong(literal)
    case Str(s) => Tidy(s)
    case Arr(items) => forall i :: 0 <= i < |items| ==> WellFormed(items[i])
    case Obj(d) => Distinct(d) && forall i :: 0 <= i < |d| ==> Tidy(d[i].key) && WellFormed(d[i].value)
    case _ => true
  }

  /** d[e.key] = e.value */
  function Put(d: seq<Entry>, e: Entry): seq<Entry>
  {
    if d == [] then [e] else if d[0].key == e.key then [e] + d[1..] else [d[0]] + Put(d[1..], e)
  }

  function PutAll(d: seq<Entry>, es: seq<Entry>): seq<Entry>
    decreases |es|
  {
    if es == [] then d else PutAll(Put(d, es[0]), es[1..])
  }

  lemma {:induction false} PutNew(d: seq<Entry>, e: Entry)
    requires forall k :: 0 <= k < |d| ==> d[k].key != e.key
    ensures Put(d, e) == d + [e]
  {
    if d != [] {
      PutNew(d[1..], e);
    }
  }

  lemma {:induction false} PutAllNew(d: seq<Entry>, es: seq<Entry>)
    requires Distinct(d + es)
    ensures PutAll(d, es) == d + es
    decreases |es|
  {
    if es == [] {
      assert d + es == d;
    } else {
      assert (d + es)[|d|] == es[0];
      forall k | 0 <= k < |d| ensures d[k].key != es[0].key { assert (d + es)[k] == d[k]; }
      PutNew(d, es[0]);
      assert d + [es[0]] + es[1..] == d + es;
      PutAllNew(d + [es[0]], es[1..]);
    }
  }

  ghost predicate EntriesOk(es: seq<Entry>)
  {
    forall i :: 0 <= i < |es| ==> Tidy(es[i].key) && WellFormed(es[i].value)
  }

  lemma {:induction false} PutKeeps(d: seq<Entry>, e: Entry)
    requires Distinct(d) && EntriesOk(d) && Tidy(e.key) && WellFormed(e.value)
    ensures Distinct(Put(d, e)) && EntriesOk(Put(d, e))
    ensures forall k :: k in Put(d, e) ==> k == e || k in d
  {
    if d != [] && d[0].key != e.key {
      PutKeeps(d[1..], e);
      var r := Put(d[1..], e);
      forall j | 0 <= j < |r| ensures r[j].key != d[0].key {
        assert r[j] in r;
        if r[j] != e {
          var k :| 0 <= k < |d[1..]| && d[1..][k] == r[j];
          assert d[k + 1] == r[j];
        }
      }
    }
  }

  lemma {:induction false} PutAllKeeps(d: seq<Entry>, es: seq<Entry>)
    requires Distinct(d) && EntriesOk(d) && EntriesOk(es)
    ensures Distinct(PutAll(d, es)) && EntriesOk(PutAll(d, es))
    decreases |es|
  {
    if es != [] {
      PutKeeps(d, es[0]);
      PutAllKeeps(Put(d, es[0]), es[1..]);
    }
  }

  // ---- dumps ---------------------------------------------------------------------------------------

  function Width(v: Value): nat
  {
    match v
    case Arr(items) => |items|
    case Obj(d) => |d|
    case _ => 0
  }

  function Print(v: Value): string
    decreases v, Width(v) + 1
  {
    match v
    case Null => "null"
    case Bool(b) => if b then "true" else "false"
    case Num(literal) => literal
    case NaN => "NaN"
    case Infinity(negative) => if negative then "-Infinity" else "Infinity"
    case Str(s) => Quoted(s)
    case Arr(items) => "[" + if items == [] then "]" else PrintItems(v, 0)
    case Obj(d) => "{" + if d == [] then "}" else PrintEntries(v, 0)
  }

  /** The items from `i` on, and the bracket. */
  function PrintItems(v: Value, i: nat): string
    requires v.Arr? && i < |v.items|
    decreases v, |v.items| - i
  {
    Print(v.items[i]) + if i + 1 == |v.items| then "]" else ", " + PrintItems(v, i + 1)
  }

  function PrintEntries(v: Value, i: nat): string
    requires v.Obj? && i < |v.entries|
    decreases v, |v.entries| - i
  {
    Quoted(v.entries[i].key) + ": " + Print(v.entries[i].value)
      + if i + 1 == |v.entries| then "}" else ", " + PrintEntries(v, i + 1)
  }

  // ---- loads ---------------------------------------------------------------------------------------

  predicate Space(c: char) { c in " \t\n\r" }

  function Skip(s: string): (r: string)
    ensures |r| <= |s|
  {
    if s != "" && Space(s[0]) then Skip(s[1..]) else s
  }

  predicate Starts(s: string, word: string) { |s| >= |word| && s[..|word|] == word }

  function ParseWord(s: string): (r: Parsed<Value>)
    ensures r.Read? ==> |r.rest| < |s|
  {
    if Starts(s, "null") then Read(Null, s[4..])
    else if Starts(s, "true") then Read(Bool(true), s[4..])
    else if Starts(s, "false") then Read(Bool(false), s[5..])
    else if Starts(s, "NaN") then Read(NaN, s[3..])
    else if Starts(s, "Infinity") then Read(Infinity(false), s[8..])
    else if Starts(s, "-Infinity") then Read(Infinity(true), s[9..])
    else Fail(Syntax)
  }

  function ParseAtom(s: string): (r: Parsed<Value>)
    ensures r.Read? ==> |r.rest| < |s|
  {
    if Matched(s) == 0 then ParseWord(s) else
      match ParseNumber(s)
      case Fail(e) => Fail(e)
      case Read(literal, rest) => Read(Num(literal), rest)
  }

  function ParseStr(s: string): (r: Parsed<Value>)
    ensures r.Read? ==> |r.rest| < |s|
  {
    match ParseString(s)
    case Fail(e) => Fail(e)
    case Read(t, rest) => Read(Str(t), rest)
  }

  function ParseValue(s: string): (r: Parsed<Value>)
    ensures r.Read? ==> |r.rest| < |s|
    decreases |s|, 1
  {
    if s == "" then Fail(Syntax)
    else if s[0] == '"' then ParseStr(s[1..])
    else if s[0] == '[' then ParseArr(Skip(s[1..]))
    else if s[0] == '{' then ParseObj(Skip(s[1..]))
    else ParseAtom(s)
  }

  /** After the bracket. */
  function ParseArr(s: string): (r: Parsed<Value>)
    ensures r.Read? ==> |r.rest| < |s|
    decreases |s|, 3
  {
    if s != "" && s[0] == ']' then Read(Arr([]), s[1..]) else
      match ParseItems(s)
      case Fail(e) => Fail(e)
      case Read(items, rest) => Read(Arr(items), rest)
  }

  function ParseItems(s: string): (r: Parsed<seq<Value>>)
    ensures r.Read? ==> |r.rest| < |s|
    decreases |s|, 2
  {
    match ParseValue(s)
    case Fail(e) => Fail(e)
    case Read(v, rest) => AfterItem(v, Skip(rest))
  }

  /** The bracket, or the comma and the other items. */
  function AfterItem(v: Value, s: string): (r: Parsed<seq<Value>>)
    ensures r.Read? ==> |r.rest| < |s|
    decreases |s|, 0
  {
    if s == "" then Fail(Syntax)
    else if s[0] == ']' then Read([v], s[1..])
    else if s[0] != ',' then Fail(Syntax)
    else
      match ParseItems(Skip(s[1..]))
      case Fail(e) => Fail(e)
      case Read(more, rest) => Read([v] + more, rest)
  }

  /** After the brace.  A key that comes twice keeps its place and gets the later value. */
  function ParseObj(s: string): (r: Parsed<Value>)
    ensures r.Read? ==> |r.rest| < |s|
    decreases |s|, 4
  {
    if s != "" && s[0] == '}' then Read(Obj([]), s[1..]) else
      match ParseEntries(s)
      case Fail(e) => Fail(e)
      case Read(es, rest) => Read(Obj(PutAll([], es)), rest)
  }

  function ParseEntry(s: string): (r: Parsed<Entry>)
    ensures r.Read? ==> |r.rest| < |s|
    decreases |s|, 2
  {
    if s == "" || s[0] != '"' then Fail(Syntax) else
      match ParseString(s[1..])
      case Fail(e) => Fail(e)
      case Read(key, rest) => AfterKey(key, Skip(rest))
  }

  /** The colon and the value. */
  function AfterKey(key: Text, s: string): (r: Parsed<Entry>)
    ensures r.Read? ==> |r.rest| < |s|
    decreases |s|, 0
  {
    if s == "" || s[0] != ':' then Fail(Syntax) else
      match ParseValue(Skip(s[1..]))
      case Fail(e) => Fail(e)
      case Read(v, rest) => Read(Entry(key, v), rest)
  }

  function ParseEntries(s: string): (r: Parsed<seq<Entry>>)
    ensures r.Read? ==> |r.rest| < |s|
    decreases |s|, 3
  {
    match ParseEntry(s)
    case Fail(e) => Fail(e)
    case Read(e, rest) => AfterEntry(e, Skip(rest))
  }

  /** The brace, or the comma and the other entries. */
  function AfterEntry(e: Entry, s: string): (r: Parsed<seq<Entry>>)
    ensures r.Read? ==> |r.rest| < |s|
    decreases |s|, 0
  {
    if s == "" then Fail(Syntax)
    else if s[0] == '}' then Read([e], s[1..])
    else if s[0] != ',' then Fail(Syntax)
    else
      match ParseEntries(Skip(s[1..]))
      case Fail(fault) => Fail(fault)
      case Read(more, rest) => Read([e] + more, rest)
  }

  datatype Result = Loaded(value: Value) | Refused(fault: Fault)

  /** The whole text must be one value. */
  function Loads(text: string): Result
  {
    match ParseValue(Skip(text))
    case Fail(e) => Refused(e)
    case Read(v, rest) => if Skip(rest) == "" then Loaded(v) else Refused(Syntax)
  }

  // ---- loads after dumps ---------------------------------------------------------------------------

  lemma NumRoundTrip(literal: string, rest: string)
    requires IsNumber(literal) && !TooLong(literal) && Delimited(rest)
    ensures ParseValue(literal + rest) == Read(Num(literal), rest)
  {
    NumberRoundTrip(literal, rest);
    MatchStops(literal, rest);
    NumberIsPlain(literal);
    AtomDispatch(literal + rest, literal[0]);
  }

  lemma AtomDispatch(s: string, first: char)
    requires s != "" && s[0] == first && (NumberChar(first) || first in "ntfNI")
    ensures ParseValue(s) == ParseAtom(s)
  {
  }

  lemma WordIsRead(v: Value, rest: string)
    requires v.Null? || v.Bool? || v.NaN? || v.Infinity?
    ensures ParseWord(Print(v) + rest) == Read(v, rest)
  {
    var word := Print(v);
    OneWord(word, rest, "null");
    OneWord(word, rest, "true");
    OneWord(word, rest, "false");
    OneWord(word, rest, "NaN");
    OneWord(word, rest, "Infinity");
    OneWord(word, rest, "-Infinity");
  }

  /** The words differ in their first characters. */
  lemma OneWord(word: string, rest: string, other: string)
    requires word != "" && other != "" && (word[0] == other[0] ==> word == other)
    ensures Starts(word + rest, other) <==> word == other
    ensures (word + rest)[|word|..] == rest
  {
    assert (word + rest)[0] == word[0] && (word + rest)[..|word|] == word;
    if Starts(word + rest, other) {
      assert (word + rest)[..|other|][0] == other[0];
    }
  }

  lemma WordRoundTrip(v: Value, rest: string)
    requires v.Null? || v.Bool? || v.NaN? || v.Infinity?
    ensures ParseValue(Print(v) + rest) == Read(v, rest)
  {
    WordIsRead(v, rest);
    WordDispatch(Print(v), rest);
  }

  lemma WordDispatch(word: string, rest: string)
    requires |word| > 1 && (word[0] in "ntfNI" || (word[0] == '-' && word[1] == 'I'))
    ensures ParseValue(word + rest) == ParseWord(word + rest)
  {
    assert (word + rest)[0] == word[0] && (word + rest)[1] == word[1];
    NoMatch(word + rest);
    AtomDispatch(word + rest, word[0]);
  }

  lemma NoMatch(s: string)
    requires |s| > 1 && !IsDigit(s[0]) && (s[0] == '-' ==> !IsDigit(s[1]))
    ensures Matched(s) == 0
  {
    assert s[1..][0] == s[1];
  }

  lemma StrRoundTrip(t: Text, rest: string)
    requires Tidy(t)
    ensures ParseValue(Quoted(t) + rest) == Read(Str(t), rest)
  {
    QuotedReads(t, rest);
  }

  /** What a printed value starts with: no space and no closing bracket. */
  lemma StartsDark(v: Value)
    requires WellFormed(v)
    ensures Print(v) != "" && !Space(Print(v)[0]) && Print(v)[0] !in "]}"
  {
    if v.Num? { NumberIsPlain(v.literal); }
  }

  lemma SkipOne(next: string)
    requires next != "" && !Space(next[0])
    ensures Skip(next) == next && Skip(" " + next) == next
  {
    assert (" " + next)[1..] == next;
  }

  lemma ArrReads(items: seq<Value>, text: string, rest: string)
    requires text != "" && !Space(text[0]) && text[0] != ']' && ParseItems(text) == Read(items, rest)
    ensures ParseValue("[" + text) == Read(Arr(items), rest)
  {
    assert ("[" + text)[1..] == text;
    SkipOne(text);
  }

  lemma ObjReads(d: seq<Entry>, text: string, rest: string)
    requires text != "" && !Space(text[0]) && text[0] != '}' && ParseEntries(text) == Read(d, rest) && Distinct(d)
    ensures ParseValue("{" + text) == Read(Obj(d), rest)
  {
    assert ("{" + text)[1..] == text;
    SkipOne(text);
    assert [] + d == d;
    PutAllNew([], d);
  }

  lemma EmptyRoundTrip(v: Value, rest: string)
    requires v == Arr([]) || v == Obj([])
    ensures ParseValue(Print(v) + rest) == Read(v, rest)
  {
    var s := Print(v) + rest;
    var t := Print(v)[1..] + rest;
    assert s[1..] == t && t[1..] == rest;
  }

  lemma LastItemReads(x: Value, rest: string)
    ensures AfterItem(x, "]" + rest) == Read([x], rest)
  {
    assert ("]" + rest)[1..] == rest;
  }

  lemma ItemReads(x: Value, next: string, more: seq<Value>, rest: string)
    requires next != "" && !Space(next[0]) && ParseItems(next) == Read(more, rest)
    ensures AfterItem(x, ", " + next) == Read([x] + more, rest)
  {
    var s := ", " + next;
    SkipOne(next);
    assert s[0] == ',' && s[1..] == " " + next;
    assert Skip(s[1..]) == next;
  }

  lemma KeyReads(key: Text, v: Value, text: string, after: string)
    requires text != "" && !Space(text[0]) && ParseValue(text) == Read(v, after)
    ensures AfterKey(key, ": " + text) == Read(Entry(key, v), after)
  {
    var s := ": " + text;
    SkipOne(text);
    assert s[0] == ':' && s[1..] == " " + text;
    ColonReads(key, v, s, text, after);
  }

  lemma ColonReads(key: Text, v: Value, s: string, text: string, after: string)
    requires s != "" && s[0] == ':' && Skip(s[1..]) == text && ParseValue(text) == Read(v, after)
    ensures AfterKey(key, s) == Read(Entry(key, v), after)
  {
  }

  lemma KeyEnds(s: string, key: Text, t: string)
    requires s != "" && s[0] == '"' && ParseString(s[1..]) == Read(key, t)
    requires t != "" && !Space(t[0])
    ensures ParseEntry(s) == AfterKey(key, t)
  {
  }

  lemma EntryReads(e: Entry, text: string, after: string)
    requires Tidy(e.key)
    requires text != "" && !Space(text[0]) && ParseValue(text) == Read(e.value, after)
    ensures ParseEntry(Quoted(e.key) + ": " + text) == Read(e, after)
  {
    var t := ": " + text;
    assert Quoted(e.key) + ": " + text == Quoted(e.key) + t;
    QuotedReads(e.key, t);
    KeyEnds(Quoted(e.key) + t, e.key, t);
    KeyReads(e.key, e.value, text, after);
  }

  lemma LastEntryReads(e: Entry, rest: string)
    ensures AfterEntry(e, "}" + rest) == Read([e], rest)
  {
    assert ("}" + rest)[1..] == rest;
  }

  lemma EntriesRead(e: Entry, next: string, more: seq<Entry>, rest: string)
    requires next != "" && !Space(next[0]) && ParseEntries(next) == Read(more, rest)
    ensures AfterEntry(e, ", " + next) == Read([e] + more, rest)
  {
    assert (", " + next)[1..] == " " + next;
    SkipOne(next);
  }

  /** Printing and reading back is the identity on well-formed values, whatever follows in the text. */
  lemma {:induction false} RoundTrip(v: Value, rest: string)
    requires WellFormed(v) && Delimited(rest)
    ensures ParseValue(Print(v) + rest) == Read(v, rest)
    decreases v, Width(v) + 2
  {
    match v {
      case Num(literal) => NumRoundTrip(literal, rest);
      case Str(t) => StrRoundTrip(t, rest);
      case Arr(items) => if items == [] { EmptyRoundTrip(v, rest); } else { ArrRoundTrip(v, rest); }
      case Obj(d) => if d == [] { EmptyRoundTrip(v, rest); } else { ObjRoundTrip(v, rest); }
      case _ => WordRoundTrip(v, rest);
    }
  }

  lemma {:induction false} ArrRoundTrip(v: Value, rest: string)
    requires v.Arr? && v.items != [] && WellFormed(v)
    ensures ParseValue(Print(v) + rest) == Read(v, rest)
    decreases v, Width(v) + 1
  {
    var text := PrintItems(v, 0) + rest;
    ItemsRoundTrip(v, 0, rest);
    ItemsText(v, 0, rest);
    ArrReads(v.items, text, rest);
    assert Print(v) + rest == "[" + text;
  }

  lemma {:induction false} ObjRoundTrip(v: Value, rest: string)
    requires v.Obj? && v.entries != [] && WellFormed(v)
    ensures ParseValue(Print(v) + rest) == Read(v, rest)
    decreases v, Width(v) + 1
  {
    var text := PrintEntries(v, 0) + rest;
    EntriesRoundTrip(v, 0, rest);
    EntriesText(v, 0, rest);
    ObjReads(v.entries, text, rest);
    ObjText(v, rest);
  }

  lemma ObjText(v: Value, rest: string)
    requires v.Obj? && v.entries != []
    ensures Print(v) + rest == "{" + (PrintEntries(v, 0) + rest)
  {
  }

  /** The text after item `i`. */
  function ItemTail(v: Value, i: nat, rest: string): string
    requires v.Arr? && i < |v.items|
  {
    if i + 1 == |v.items| then "]" + rest else ", " + (PrintItems(v, i + 1) + rest)
  }

  lemma ItemsText(v: Value, i: nat, rest: string)
    requires v.Arr? && i < |v.items| && WellFormed(v.items[i])
    ensures var text := PrintItems(v, i) + rest;
            text == Print(v.items[i]) + ItemTail(v, i, rest) && text != "" && !Space(text[0]) && text[0] != ']'
  {
    StartsDark(v.items[i]);
  }

  lemma ItemEnds(s: string, x: Value, t: string)
    requires ParseValue(s) == Read(x, t) && t != "" && !Space(t[0])
    ensures ParseItems(s) == AfterItem(x, t)
  {
  }

  lemma ItemsGoOn(v: Value, i: nat, rest: string)
    requires v.Arr? && i < |v.items|
    requires i + 1 < |v.items| ==>
               WellFormed(v.items[i + 1]) && ParseItems(PrintItems(v, i + 1) + rest) == Read(v.items[i + 1..], rest)
    ensures AfterItem(v.items[i], ItemTail(v, i, rest)) == Read(v.items[i..], rest)
  {
    var x := v.items[i];
    if i + 1 == |v.items| {
      LastItemReads(x, rest);
      assert v.items[i..] == [x];
    } else {
      ItemsText(v, i + 1, rest);
      ItemReads(x, PrintItems(v, i + 1) + rest, v.items[i + 1..], rest);
      FromHere(v.items, i);
    }
  }

  lemma FromHere<T>(q: seq<T>, i: nat)
    requires i < |q|
    ensures q[i..] == [q[i]] + q[i + 1..]
  {
  }

  lemma {:induction false} ItemsRoundTrip(v: Value, i: nat, rest: string)
    requires v.Arr? && WellFormed(v) && i < |v.items|
    ensures ParseItems(PrintItems(v, i) + rest) == Read(v.items[i..], rest)
    decreases v, |v.items| - i
  {
    var x, after := v.items[i], ItemTail(v, i, rest);
    ItemsText(v, i, rest);
    RoundTrip(x, after);
    ItemEnds(Print(x) + after, x, after);
    if i + 1 < |v.items| {
      ItemsRoundTrip(v, i + 1, rest);
    }
    ItemsGoOn(v, i, rest);
  }

  /** The text after entry `i`. */
  function EntryTail(v: Value, i: nat, rest: string): string
    requires v.Obj? && i < |v.entries|
  {
    if i + 1 == |v.entries| then "}" + rest else ", " + (PrintEntries(v, i + 1) + rest)
  }

  lemma EntriesText(v: Value, i: nat, rest: string)
    requires v.Obj? && i < |v.entries|
    ensures var text, e := PrintEntries(v, i) + rest, v.entries[i];
            && text == Quoted(e.key) + ": " + (Print(e.value) + EntryTail(v, i, rest))
            && text != "" && text[0] == '"'
  {
  }

  lemma EntryEnds(s: string, e: Entry, t: string)
    requires ParseEntry(s) == Read(e, t) && t != "" && !Space(t[0])
    ensures ParseEntries(s) == AfterEntry(e, t)
  {
  }

  lemma {:induction false} EntryRoundTrip(v: Value, i: nat, after: string)
    requires v.Obj? && WellFormed(v) && i < |v.entries| && Delimited(after)
    ensures ParseEntry(Quoted(v.entries[i].key) + ": " + (Print(v.entries[i].value) + after))
            == Read(v.entries[i], after)
    decreases v, 0
  {
    var e := v.entries[i];
    RoundTrip(e.value, after);
    StartsDark(e.value);
    EntryReads(e, Print(e.value) + after, after);
  }

  lemma EntriesGoOn(v: Value, i: nat, rest: string)
    requires v.Obj? && i < |v.entries|
    requires i + 1 < |v.entries| ==> ParseEntries(PrintEntries(v, i + 1) + rest) == Read(v.entries[i + 1..], rest)
    ensures AfterEntry(v.entries[i], EntryTail(v, i, rest)) == Read(v.entries[i..], rest)
  {
    var e := v.entries[i];
    if i + 1 == |v.entries| {
      LastEntryReads(e, rest);
      assert v.entries[i..] == [e];
    } else {
      EntriesText(v, i + 1, rest);
      EntriesRead(e, PrintEntries(v, i + 1) + rest, v.entries[i + 1..], rest);
      FromHere(v.entries, i);
    }
  }

  lemma {:induction false} EntriesRoundTrip(v: Value, i: nat, rest: string)
    requires v.Obj? && WellFormed(v) && i < |v.entries|
    ensures ParseEntries(PrintEntries(v, i) + rest) == Read(v.entries[i..], rest)
    decreases v, |v.entries| - i
  {
    var e, after := v.entries[i], EntryTail(v, i, rest);
    EntriesText(v, i, rest);
    EntryRoundTrip(v, i, after);
    EntryEnds(Quoted(e.key) + ": " + (Print(e.value) + after), e, after);
    if i + 1 < |v.entries| {
      EntriesRoundTrip(v, i + 1, rest);
    }
    EntriesGoOn(v, i, rest);
  }

  // ---- what is read is well-formed -----------------------------------------------------------------

  lemma AtomIsWellFormed(s: string)
    ensures ParseAtom(s).Read? ==> WellFormed(ParseAtom(s).value)
  {
    MatchIsNumber(s);
  }

  lemma {:induction false} ValueIsWellFormed(s: string)
    ensures ParseValue(s).Read? ==> WellFormed(ParseValue(s).value)
    decreases |s|, 1
  {
    if s != "" {
      if s[0] == '"' {
        ReadIsTidy(s[1..]);
      } else if s[0] == '[' {
        ArrIsWellFormed(Skip(s[1..]));
      } else if s[0] == '{' {
        ObjIsWellFormed(Skip(s[1..]));
      } else {
        AtomIsWellFormed(s);
      }
    }
  }

  lemma {:induction false} ArrIsWellFormed(s: string)
    ensures ParseArr(s).Read? ==> WellFormed(ParseArr(s).value)
    decreases |s|, 3
  {
    ItemsAreWellFormed(s);
  }

  lemma {:induction false} ItemsAreWellFormed(s: string)
    ensures ParseItems(s).Read? ==> WellFormed(Arr(ParseItems(s).value))
    decreases |s|, 2
  {
    ValueIsWellFormed(s);
    if ParseValue(s).Read? { AfterItemIsWellFormed(ParseValue(s).value, Skip(ParseValue(s).rest)); }
  }

  lemma {:induction false} AfterItemIsWellFormed(v: Value, s: string)
    requires WellFormed(v)
    ensures AfterItem(v, s).Read? ==> WellFormed(Arr(AfterItem(v, s).value))
    decreases |s|, 0
  {
    if s != "" && s[0] == ',' { ItemsAreWellFormed(Skip(s[1..])); }
  }

  lemma {:induction false} ObjIsWellFormed(s: string)
    ensures ParseObj(s).Read? ==> WellFormed(ParseObj(s).value)
    decreases |s|, 4
  {
    EntriesAreOk(s);
    if ParseEntries(s).Read? { PutAllKeeps([], ParseEntries(s).value); }
  }

  lemma {:induction false} EntryIsOk(s: string)
    ensures ParseEntry(s).Read? ==> EntriesOk([ParseEntry(s).value])
    decreases |s|, 2
  {
    if s != "" && s[0] == '"' {
      ReadIsTidy(s[1..]);
      var key := ParseString(s[1..]);
      if key.Read? { AfterKeyIsOk(key.value, Skip(key.rest)); }
    }
  }

  lemma {:induction false} AfterKeyIsOk(key: Text, s: string)
    requires Tidy(key)
    ensures AfterKey(key, s).Read? ==> EntriesOk([AfterKey(key, s).value])
    decreases |s|, 0
  {
    if s != "" && s[0] == ':' { ValueIsWellFormed(Skip(s[1..])); }
  }

  lemma {:induction false} EntriesAreOk(s: string)
    ensures ParseEntries(s).Read? ==> EntriesOk(ParseEntries(s).value)
    decreases |s|, 3
  {
    EntryIsOk(s);
    if ParseEntry(s).Read? { AfterEntryIsOk(ParseEntry(s).value, Skip(ParseEntry(s).rest)); }
  }

  lemma {:induction false} AfterEntryIsOk(e: Entry, s: string)
    requires EntriesOk([e])
    ensures AfterEntry(e, s).Read? ==> EntriesOk(AfterEntry(e, s).value)
    decreases |s|, 0
  {
    if s != "" && s[0] == ',' {
      EntriesAreOk(Skip(s[1..]));
      if AfterEntry(e, s).Read? { EntriesJoin([e], ParseEntries(Skip(s[1..])).value); }
    }
  }

  lemma EntriesJoin(d: seq<Entry>, es: seq<Entry>)
    requires EntriesOk(d) && EntriesOk(es)
    ensures EntriesOk(d + es)
  {
  }

  lemma LoadedIsWellFormed(text: string)
    ensures Loads(text).Loaded? ==> WellFormed(Loads(text).value)
  {
    ValueIsWellFormed(Skip(text));
  }

  lemma LoadsPrinted(v: Value)
    requires WellFormed(v)
    ensures Loads(Print(v) + "\n") == Loaded(v)
  {
    StartsDark(v);
    assert (Print(v) + "\n")[0] == Print(v)[0];
    RoundTrip(v, "\n");
    assert "\n"[1..] == "";
  }

  /** Exactly the well-formed values survive being printed and read. */
  lemma LoadsPrintedExactly(v: Value)
    ensures Loads(Print(v) + "\n") == Loaded(v) <==> WellFormed(v)
  {
    if WellFormed(v) { LoadsPrinted(v); }
    LoadedIsWellFormed(Print(v) + "\n");
  }

  /** A high surrogate right before a low one: the two come back as the one character they encode. */
  lemma SurrogatesJoin()
    ensures Loads(Print(Str([0xD800, 0xDC00])) + "\n") == Loaded(Str([0x10000]))
  {
    var t: Text := [0xD800, 0xDC00];
    assert t[1..] == [0xDC00];
    assert EscapeAll(t) == Unicode(0xD800) + (Unicode(0xDC00) + "");
    assert EscapeAll([0x10000]) == (Unicode(0xD800) + Unicode(0xDC00)) + "";
    assert EscapeAll(t) == EscapeAll([0x10000]);
    LoadsPrinted(Str([0x10000]));
  }

  // ---- frames --------------------------------------------------------------------------------------

  lemma {:induction false} PrintedIsPlain(v: Value)
    requires WellFormed(v)
    ensures Plain(Print(v))
    decreases v, Width(v) + 1
  {
    match v {
      case Num(literal) => NumberIsPlain(literal);
      case Str(s) => EscapedIsPlain(s);
      case Arr(items) => if items != [] { ItemsArePlain(v, 0); }
      case Obj(d) => if d != [] { EntriesArePlain(v, 0); }
      case _ =>
    }
  }

  lemma {:induction false} ItemsArePlain(v: Value, i: nat)
    requires v.Arr? && WellFormed(v) && i < |v.items|
    ensures Plain(PrintItems(v, i))
    decreases v, |v.items| - i
  {
    PrintedIsPlain(v.items[i]);
    if i + 1 < |v.items| { ItemsArePlain(v, i + 1); }
  }

  lemma PlainSum(a: string, b: string)
    requires Plain(a) && Plain(b)
    ensures Plain(a + b)
  {
  }

  lemma {:induction false} EntriesArePlain(v: Value, i: nat)
    requires v.Obj? && WellFormed(v) && i < |v.entries|
    ensures Plain(PrintEntries(v, i))
    decreases v, |v.entries| - i
  {
    var key, value := Quoted(v.entries[i].key), Print(v.entries[i].value);
    EscapedIsPlain(v.entries[i].key);
    PrintedIsPlain(v.entries[i].value);
    PlainSum(key, ": ");
    PlainSum(key + ": ", value);
    if i + 1 < |v.entries| {
      EntriesArePlain(v, i + 1);
      PlainSum(", ", PrintEntries(v, i + 1));
      PlainSum(key + ": " + value, ", " + PrintEntries(v, i + 1));
    } else {
      PlainSum(key + ": " + value, "}");
    }
  }

  /** What repeated `readline` calls return: each line with its newline, and last what has none. */
  function Lines(s: string): (ls: seq<string>)
    ensures Concat(ls) == s
  {
    if s == "" then []
    else
      var more := Lines(s[1..]);
      if s[0] == '\n' || more == [] then [[s[0]]] + more
      else [[s[0]] + more[0]] + more[1..]
  }

  function Concat(ls: seq<string>): string { if ls == [] then "" else ls[0] + Concat(ls[1..]) }

  lemma {:induction false} LineOff(line: string, s: string)
    requires Plain(line)
    ensures Lines(line + "\n" + s) == [line + "\n"] + Lines(s)
  {
    var text := line + "\n" + s;
    if line == "" {
      assert text[1..] == s && line + "\n" == "\n";
    } else {
      assert text[1..] == line[1..] + "\n" + s;
      assert forall c :: c in line[1..] ==> c in line;
      LineOff(line[1..], s);
      assert text[0] == line[0] && line[0] in line;
      assert [line[0]] + (line[1..] + "\n") == line + "\n";
    }
  }

  /** The first of several frames comes off whole. */
  lemma FrameOff(v: Value, more: string)
    requires WellFormed(v)
    ensures Lines(Print(v) + "\n" + more) == [Print(v) + "\n"] + Lines(more)
  {
    PrintedIsPlain(v);
    LineOff(Print(v), more);
  }
}
