/** Canonical JSON: the plain value tree, its key-sorted form, the compact text of that form, and a
    parser (sections 2 and 4 of RFC 8259, without insignificant whitespace) that recovers it. */
module CanonicalJson {
  import opened Wrappers
  import opened JsonText
  import Ordering

  /** A dictionary keeps its entries in insertion order. Float and Foreign are the Python values
      that cannot be canonicalized. */
  datatype Value =
    | Null | Bool(b: bool) | Int(n: int) | Str(s: string)
    | List(items: seq<Value>)
    | Dict(entries: seq<Entry>)
    | Float | Foreign

  datatype Entry = Entry(key: string, value: Value)

  datatype Error = FloatNotPermitted | UnsupportedType

  const KeyOf := (e: Entry) => e.key

  ghost predicate DistinctKeys(entries: seq<Entry>) {
    Ordering.DistinctBy(entries, KeyOf)
  }

  /** Trees of string-keyed dictionaries, lists, strings, ints, bools and null, with the distinct
      keys of a dictionary. */
  ghost predicate Plain(v: Value) {
    match v
    case List(items) => forall i :: 0 <= i < |items| ==> Plain(items[i])
    case Dict(entries) => DistinctKeys(entries) && forall i :: 0 <= i < |entries| ==> Plain(entries[i].value)
    case Float => false
    case Foreign => false
    case _ => true
  }

  // ---------- the key-sorted tree ----------

  function Canon(v: Value): Value
    decreases v, 1
  {
    match v
    case List(items) => List(CanonItems(items))
    case Dict(entries) => Dict(Ordering.SortBy(CanonEntries(entries), KeyOf))
    case _ => v
  }

  function CanonItems(items: seq<Value>): (r: seq<Value>)
    ensures |r| == |items| && forall i :: 0 <= i < |r| ==> r[i] == Canon(items[i])
    decreases items, 0
  {
    if items == [] then [] else [Canon(items[0])] + CanonItems(items[1..])
  }

  function CanonEntries(entries: seq<Entry>): (r: seq<Entry>)
    ensures |r| == |entries|
    ensures forall i :: 0 <= i < |r| ==> r[i] == Entry(entries[i].key, Canon(entries[i].value))
    decreases entries, 0
  {
    if entries == [] then []
    else [Entry(entries[0].key, Canon(entries[0].value))] + CanonEntries(entries[1..])
  }

  // ---------- printing ----------

  function Print(v: Value): string
    decreases v, 1
  {
    match v
    case Null => "null"
    case Bool(b) => if b then "true" else "false"
    case Int(n) => Decimal(n)
    case Str(s) => Quote(s)
    case List(items) => "[" + PrintItems(items) + "]"
    case Dict(entries) => "{" + PrintEntries(entries) + "}"
    case Float => ""
    case Foreign => ""
  }

  function PrintItems(items: seq<Value>): string
    decreases items, 0
  {
    if items == [] then ""
    else if |items| == 1 then Print(items[0])
    else Print(items[0]) + "," + PrintItems(items[1..])
  }

  function PrintEntry(e: Entry): string
    decreases e, 2
  {
    Quote(e.key) + ":" + Print(e.value)
  }

  function PrintEntries(entries: seq<Entry>): string
    decreases entries, 0
  {
    if entries == [] then ""
    else if |entries| == 1 then PrintEntry(entries[0])
    else PrintEntry(entries[0]) + "," + PrintEntries(entries[1..])
  }

  /** The first value that cannot be canonicalized, in the order of the traversal. */
  function Refusal(v: Value): Option<Error>
    decreases v, 1
  {
    match v
    case Float => Some(FloatNotPermitted)
    case Foreign => Some(UnsupportedType)
    case List(items) => RefusalIn(items)
    case Dict(entries) => RefusalAmong(entries)
    case _ => None
  }

  function RefusalIn(items: seq<Value>): (r: Option<Error>)
    ensures r.None? <==> forall i :: 0 <= i < |items| ==> Refusal(items[i]).None?
    decreases items, 0
  {
    if items == [] then None
    else
      var first := Refusal(items[0]);
      if first.Some? then first else RefusalIn(items[1..])
  }

  function RefusalAmong(entries: seq<Entry>): (r: Option<Error>)
    ensures r.None? <==> forall i :: 0 <= i < |entries| ==> Refusal(entries[i].value).None?
    decreases entries, 0
  {
    if entries == [] then None
    else
      var first := Refusal(entries[0].value);
      if first.Some? then first else RefusalAmong(entries[1..])
  }

  /** The canonical text, or the reason why there is none. */
  function CanonicalText(v: Value): Result<string, Error> {
    var refusal := Refusal(v);
    if refusal.Some? then Err(refusal.value) else Ok(Print(Canon(v)))
  }

  // ---------- parsing ----------

  function Parse(s: string): (r: Option<(Value, string)>)
    ensures r.Some? ==> |r.value.1| < |s|
    decreases |s|, 1
  {
    if s == [] then None
    else if "null" <= s then Some((Null, s[4..]))
    else if "true" <= s then Some((Bool(true), s[4..]))
    else if "false" <= s then Some((Bool(false), s[5..]))
    else if s[0] == '\"' then
      var r := ReadString(s);
      if r.None? then None else Some((Str(r.value.0), r.value.1))
    else if s[0] == '[' then
      if |s| > 1 && s[1] == ']' then Some((List([]), s[2..]))
      else
        var r := ParseItems(s[1..]);
        if r.None? then None else Some((List(r.value.0), r.value.1))
    else if s[0] == '{' then
      if |s| > 1 && s[1] == '}' then Some((Dict([]), s[2..]))
      else
        var r := ParseEntries(s[1..]);
        if r.None? then None else Some((Dict(r.value.0), r.value.1))
    else
      var r := ReadInt(s);
      if r.None? then None else Some((Int(r.value.0), r.value.1))
  }

  /** One or more values separated by commas, up to the closing bracket. */
  function ParseItems(s: string): (r: Option<(seq<Value>, string)>)
    ensures r.Some? ==> |r.value.1| < |s|
    decreases |s|, 2
  {
    var first := Parse(s);
    if first.None? || first.value.1 == [] then None
    else
      var (v, t) := first.value;
      if t[0] == ']' then Some(([v], t[1..]))
      else if t[0] != ',' then None
      else
        var more := ParseItems(t[1..]);
        if more.None? then None else Some(([v] + more.value.0, more.value.1))
  }

  function ParseEntry(s: string): (r: Option<(Entry, string)>)
    ensures r.Some? ==> |r.value.1| < |s|
    decreases |s|, 2
  {
    var key := ReadString(s);
    if key.None? || key.value.1 == [] || key.value.1[0] != ':' then None
    else
      var v := Parse(key.value.1[1..]);
      if v.None? then None else Some((Entry(key.value.0, v.value.0), v.value.1))
  }

  function ParseEntries(s: string): (r: Option<(seq<Entry>, string)>)
    ensures r.Some? ==> |r.value.1| < |s|
    decreases |s|, 3
  {
    var first := ParseEntry(s);
    if first.None? || first.value.1 == [] then None
    else
      var (e, t) := first.value;
      if t[0] == '}' then Some(([e], t[1..]))
      else if t[0] != ',' then None
      else
        var more := ParseEntries(t[1..]);
        if more.None? then None else Some(([e] + more.value.0, more.value.1))
  }

  // ---------- the round trip ----------

  /** The text of a value starts with a character that tells its kind. */
  lemma PrintStarts(v: Value)
    requires Plain(v)
    ensures Print(v) != [] && Print(v)[0] != ']' && Print(v)[0] != '}'
  {
  }

  lemma ItemsStart(items: seq<Value>)
    requires items != [] && Plain(items[0])
    ensures PrintItems(items) != [] && PrintItems(items)[0] != ']'
  {
    PrintStarts(items[0]);
  }

  lemma LiteralParses(v: Value, rest: string)
    requires v.Null? || v.Bool?
    ensures Parse(Print(v) + rest) == Some((v, rest))
  {
    var text := Print(v) + rest;
    assert text[|Print(v)|..] == rest && text[0] == Print(v)[0];
    assert Print(v) <= text;
  }

  /** The first character tells that a text is none of the three literals. */
  lemma NotLiteral(s: string)
    requires s != [] && s[0] != 'n' && s[0] != 't' && s[0] != 'f'
    ensures !("null" <= s) && !("true" <= s) && !("false" <= s)
  {
  }

  lemma IntParses(n: int, rest: string)
    requires !StartsWithDigit(rest)
    ensures Parse(Decimal(n) + rest) == Some((Int(n), rest))
  {
    DecimalRoundTrip(n, rest);
    var text := Decimal(n) + rest;
    assert IsDigit(text[0]) || text[0] == '-';
    NotLiteral(text);
  }

  lemma StringParses(s: string, rest: string)
    ensures Parse(Quote(s) + rest) == Some((Str(s), rest))
  {
    QuoteRoundTrip(s, rest);
    assert (Quote(s) + rest)[0] == '\"';
    NotLiteral(Quote(s) + rest);
  }

  lemma BracketParses(s: string, t: string, items: seq<Value>, rest: string)
    requires s != [] && s[0] == '[' && s[1..] == t && t != [] && t[0] != ']'
    requires ParseItems(t) == Some((items, rest))
    ensures Parse(s) == Some((List(items), rest))
  {
    NotLiteral(s);
  }

  lemma BraceParses(s: string, t: string, entries: seq<Entry>, rest: string)
    requires s != [] && s[0] == '{' && s[1..] == t && t != [] && t[0] != '}'
    requires ParseEntries(t) == Some((entries, rest))
    ensures Parse(s) == Some((Dict(entries), rest))
  {
    NotLiteral(s);
  }

  lemma EmptyParses(rest: string)
    ensures Parse("[]" + rest) == Some((List([]), rest))
    ensures Parse("{}" + rest) == Some((Dict([]), rest))
  {
    NotLiteral("[]" + rest);
    NotLiteral("{}" + rest);
    assert ("[]" + rest)[2..] == rest && ("{}" + rest)[2..] == rest;
  }

  lemma {:induction false} PrintParses(v: Value, rest: string)
    requires Plain(v) && !StartsWithDigit(rest)
    ensures Parse(Print(v) + rest) == Some((v, rest))
    decreases v, 1
  {
    match v
    case Null => LiteralParses(v, rest);
    case Bool(_) => LiteralParses(v, rest);
    case Int(n) => IntParses(n, rest);
    case Str(s) => StringParses(s, rest);
    case List(items) =>
      if items == [] {
        EmptyParses(rest);
        assert Print(v) == "[]";
      } else {
        ListParses(items, rest);
      }
    case Dict(entries) =>
      if entries == [] {
        EmptyParses(rest);
        assert Print(v) == "{}";
      } else {
        DictParses(entries, rest);
      }
  }

  lemma ListParses(items: seq<Value>, rest: string)
    requires items != [] && forall i :: 0 <= i < |items| ==> Plain(items[i])
    ensures Parse("[" + PrintItems(items) + "]" + rest) == Some((List(items), rest))
    decreases items, 1
  {
    var inner := PrintItems(items) + "]" + rest;
    ItemsParse(items, rest);
    ItemsStart(items);
    Unwrap('[', PrintItems(items), "]", rest);
    BracketParses("[" + PrintItems(items) + "]" + rest, inner, items, rest);
  }

  lemma DictParses(entries: seq<Entry>, rest: string)
    requires entries != [] && forall i :: 0 <= i < |entries| ==> Plain(entries[i].value)
    ensures Parse("{" + PrintEntries(entries) + "}" + rest) == Some((Dict(entries), rest))
    decreases entries, 1
  {
    var inner := PrintEntries(entries) + "}" + rest;
    EntriesParse(entries, rest);
    assert inner[0] == PrintEntry(entries[0])[0] == '\"';
    Unwrap('{', PrintEntries(entries), "}", rest);
    BraceParses("{" + PrintEntries(entries) + "}" + rest, inner, entries, rest);
  }

  lemma Unwrap(open: char, inner: string, close: string, rest: string)
    ensures var text := [open] + inner + close + rest;
            text != [] && text[0] == open && text[1..] == inner + close + rest
  {
  }

  /** How a list goes on after its first value. */
  lemma ItemsStep(s: string, v: Value, t: string, more: seq<Value>, rest: string)
    requires Parse(s) == Some((v, t)) && t != []
    ensures t[0] == ']' ==> ParseItems(s) == Some(([v], t[1..]))
    ensures t[0] == ',' && ParseItems(t[1..]) == Some((more, rest)) ==> ParseItems(s) == Some(([v] + more, rest))
  {
  }

  lemma EntriesStep(s: string, e: Entry, t: string, more: seq<Entry>, rest: string)
    requires ParseEntry(s) == Some((e, t)) && t != []
    ensures t[0] == '}' ==> ParseEntries(s) == Some(([e], t[1..]))
    ensures t[0] == ',' && ParseEntries(t[1..]) == Some((more, rest)) ==> ParseEntries(s) == Some(([e] + more, rest))
  {
  }

  lemma {:induction false} ItemsParse(items: seq<Value>, rest: string)
    requires items != [] && forall i :: 0 <= i < |items| ==> Plain(items[i])
    ensures ParseItems(PrintItems(items) + "]" + rest) == Some((items, rest))
    decreases items, 0
  {
    var text := PrintItems(items) + "]" + rest;
    var v, more := items[0], items[1..];
    var t := if more == [] then "]" + rest else "," + (PrintItems(more) + "]" + rest);
    assert text == Print(v) + t;
    PrintParses(v, t);
    ItemsStep(text, v, t, more, rest);
    assert items == [v] + more;
    if more == [] {
      assert t[1..] == rest && items == [v];
    } else {
      ItemsParse(more, rest);
      assert t[1..] == PrintItems(more) + "]" + rest;
    }
  }

  lemma Reassociate(q: string, p: string, rest: string)
    ensures (q + ":" + p) + rest == q + (":" + (p + rest))
  {
  }

  lemma EntryStep(s: string, key: string, t: string, u: string, v: Value, rest: string)
    requires ReadString(s) == Some((key, t)) && t == ":" + u && Parse(u) == Some((v, rest))
    ensures ParseEntry(s) == Some((Entry(key, v), rest))
  {
    assert t[1..] == u;
  }

  lemma {:induction false} EntryParses(e: Entry, rest: string)
    requires Plain(e.value) && !StartsWithDigit(rest)
    ensures ParseEntry(PrintEntry(e) + rest) == Some((e, rest))
    decreases e, 2
  {
    var after := Print(e.value) + rest;
    var tail := ":" + after;
    Reassociate(Quote(e.key), Print(e.value), rest);
    QuoteRoundTrip(e.key, tail);
    PrintParses(e.value, rest);
    EntryStep(PrintEntry(e) + rest, e.key, tail, after, e.value, rest);
  }

  lemma {:induction false} EntriesParse(entries: seq<Entry>, rest: string)
    requires entries != [] && forall i :: 0 <= i < |entries| ==> Plain(entries[i].value)
    ensures ParseEntries(PrintEntries(entries) + "}" + rest) == Some((entries, rest))
    decreases entries, 0
  {
    var text := PrintEntries(entries) + "}" + rest;
    var e, more := entries[0], entries[1..];
    var t := if more == [] then "}" + rest else "," + (PrintEntries(more) + "}" + rest);
    assert text == PrintEntry(e) + t;
    EntryParses(e, t);
    EntriesStep(text, e, t, more, rest);
    assert entries == [e] + more;
    if more == [] {
      assert t[1..] == rest && entries == [e];
    } else {
      EntriesParse(more, rest);
      assert t[1..] == PrintEntries(more) + "}" + rest;
    }
  }

  // ---------- the layout ----------

  lemma {:induction false} ItemsJoin(a: seq<Value>, b: seq<Value>)
    requires a != [] && b != []
    ensures PrintItems(a + b) == PrintItems(a) + "," + PrintItems(b)
    decreases |a|
  {
    assert (a + b)[1..] == a[1..] + b;
    if |a| > 1 {
      ItemsJoin(a[1..], b);
    } else {
      assert a[1..] + b == b;
    }
  }

  lemma {:induction false} EntriesJoin(a: seq<Entry>, b: seq<Entry>)
    requires a != [] && b != []
    ensures PrintEntries(a + b) == PrintEntries(a) + "," + PrintEntries(b)
    decreases |a|
  {
    assert (a + b)[1..] == a[1..] + b;
    if |a| > 1 {
      EntriesJoin(a[1..], b);
    } else {
      assert a[1..] + b == b;
    }
  }

  /** The text is compact: brackets, commas and colons, without a space, around the texts of the parts
      in their order. A longer list, or dictionary, continues with what the rest prints after its own
      bracket. */
  lemma ListLayout(v: Value, items: seq<Value>)
    ensures Print(List([])) == "[]" && Print(List([v])) == "[" + Print(v) + "]"
    ensures items != [] ==> Print(List([v] + items)) == "[" + Print(v) + "," + Print(List(items))[1..]
  {
    assert PrintItems([v]) == Print(v);
    if items != [] {
      ItemsJoin([v], items);
      assert Print(List(items))[1..] == PrintItems(items) + "]";
      assert Print(List([v] + items)) == "[" + (Print(v) + "," + PrintItems(items)) + "]";
    }
  }

  lemma DictLayout(key: string, v: Value, entries: seq<Entry>)
    ensures Print(Dict([])) == "{}" && Print(Dict([Entry(key, v)])) == "{" + (Quote(key) + ":" + Print(v)) + "}"
    ensures entries != [] ==>
              Print(Dict([Entry(key, v)] + entries)) ==
                "{" + (Quote(key) + ":" + Print(v)) + "," + Print(Dict(entries))[1..]
  {
    var e := Entry(key, v);
    var text := PrintEntry(e);
    assert PrintEntries([e]) == text;
    if entries != [] {
      EntriesJoin([e], entries);
      var rest := PrintEntries(entries);
      assert Print(Dict(entries))[1..] == rest + "}";
      assert "{" + (text + "," + rest) + "}" == "{" + text + "," + (rest + "}");
    }
  }

  /** The literals, numbers and strings. */
  lemma LeafLayout(b: bool, n: int, s: string)
    ensures Print(Null) == "null" && Print(Bool(b)) == if b then "true" else "false"
    ensures Print(Int(n)) == Decimal(n) && Print(Str(s)) == "\"" + EscapeAll(s) + "\""
  {
  }
}
