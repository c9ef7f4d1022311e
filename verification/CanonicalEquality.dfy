/** What the canonical bytes identify: two plain trees print the same text exactly when they differ
    in nothing but the insertion order of dictionary entries. */
module CanonicalEquality {
  import opened Wrappers
  import opened JsonText
  import opened CanonicalJson
  import Ordering

  /** Equality of trees that ignores the order of dictionary entries, at every depth: dictionaries
      have the same keys, and equal values under equal keys. */
  ghost predicate Same(a: Value, b: Value)
    decreases a
  {
    if a.List? && b.List? then
      |a.items| == |b.items| && forall i :: 0 <= i < |a.items| ==> Same(a.items[i], b.items[i])
    else if a.Dict? && b.Dict? then
      && Keys(a.entries) == Keys(b.entries)
      && forall i, j :: 0 <= i < |a.entries| && 0 <= j < |b.entries| && a.entries[i].key == b.entries[j].key ==>
           Same(a.entries[i].value, b.entries[j].value)
    else a == b
  }

  ghost function Keys(es: seq<Entry>): set<string> {
    set i | 0 <= i < |es| :: es[i].key
  }

  // ---------- the canonical tree is plain and parses back ----------

  lemma {:induction false} CanonIsPlain(v: Value)
    requires Plain(v)
    ensures Plain(Canon(v))
    decreases v
  {
    match v
    case List(items) =>
      forall i | 0 <= i < |items|
        ensures Plain(Canon(items[i]))
      {
        CanonIsPlain(items[i]);
      }
    case Dict(entries) =>
      var canon := CanonEntries(entries);
      forall i | 0 <= i < |canon|
        ensures Plain(canon[i].value)
      {
        CanonIsPlain(entries[i].value);
      }
      var sorted := Ordering.SortBy(canon, KeyOf);
      Ordering.SortByKeeps(canon, KeyOf);
      assert DistinctKeys(canon);
      Ordering.DistinctUnderPermutation(canon, sorted, KeyOf);
      forall i | 0 <= i < |sorted|
        ensures Plain(sorted[i].value)
      {
        assert sorted[i] in multiset(canon);
      }
    case _ =>
  }

  /** The parser recovers exactly the key-sorted tree, with no text left over. */
  lemma CanonicalTextParses(v: Value)
    requires Plain(v)
    ensures CanonicalText(v).Ok? && Parse(CanonicalText(v).value) == Some((Canon(v), ""))
  {
    CanonIsPlain(v);
    PlainIsAccepted(v);
    PrintParses(Canon(v), "");
    assert Print(Canon(v)) + "" == Print(Canon(v));
  }

  // ---------- the canonical tree is the tree, with its keys ascending ----------

  /** In every dictionary, at every depth, the keys ascend strictly by code point. */
  ghost predicate KeysAscend(v: Value) {
    match v
    case List(items) => forall i :: 0 <= i < |items| ==> KeysAscend(items[i])
    case Dict(entries) =>
      && Ordering.Ascending(Ordering.KeysBy(entries, KeyOf))
      && forall i :: 0 <= i < |entries| ==> KeysAscend(entries[i].value)
    case _ => true
  }

  lemma {:induction false} CanonAscends(v: Value)
    requires Plain(v)
    ensures KeysAscend(Canon(v))
    decreases v
  {
    match v
    case List(items) =>
      forall i | 0 <= i < |items|
        ensures KeysAscend(Canon(items[i]))
      {
        CanonAscends(items[i]);
      }
    case Dict(entries) =>
      var canon := CanonEntries(entries);
      forall i | 0 <= i < |canon|
        ensures KeysAscend(canon[i].value)
      {
        CanonAscends(entries[i].value);
      }
      var sorted := Ordering.SortBy(canon, KeyOf);
      Ordering.SortByKeeps(canon, KeyOf);
      assert DistinctKeys(canon);
      Ordering.DistinctUnderPermutation(canon, sorted, KeyOf);
      Ordering.SortedAscends(sorted, KeyOf);
      forall i | 0 <= i < |sorted|
        ensures KeysAscend(sorted[i].value)
      {
        assert sorted[i] in multiset(canon);
      }
    case _ =>
  }

  /** Sorting changes nothing but the order of entries. */
  lemma {:induction false} CanonIsSame(v: Value)
    requires Plain(v)
    ensures Same(Canon(v), v)
    decreases v
  {
    match v
    case List(items) =>
      forall i | 0 <= i < |items|
        ensures Same(Canon(items[i]), items[i])
      {
        CanonIsSame(items[i]);
      }
    case Dict(entries) =>
      forall j | 0 <= j < |entries|
        ensures Same(Canon(entries[j].value), entries[j].value)
      {
        CanonIsSame(entries[j].value);
      }
      EntriesAreSame(entries);
    case _ =>
  }

  lemma EntriesAreSame(entries: seq<Entry>)
    requires DistinctKeys(entries)
    requires forall j :: 0 <= j < |entries| ==> Same(Canon(entries[j].value), entries[j].value)
    ensures Same(Canon(Dict(entries)), Dict(entries))
  {
    var canon := CanonEntries(entries);
    var sorted := Ordering.SortBy(canon, KeyOf);
    SortedFromEntries(entries, canon, sorted);
    SameKeys(sorted, entries, canon);
    forall i, j | 0 <= i < |sorted| && 0 <= j < |entries| && sorted[i].key == entries[j].key
      ensures Same(sorted[i].value, entries[j].value)
    {
      var k :| 0 <= k < |entries| && sorted[i] == canon[k];
      assert KeyOf(entries[k]) == KeyOf(entries[j]);
      assert k == j;
    }
  }

  lemma SortedFromEntries(entries: seq<Entry>, canon: seq<Entry>, sorted: seq<Entry>)
    requires canon == CanonEntries(entries) && sorted == Ordering.SortBy(canon, KeyOf)
    ensures forall i :: 0 <= i < |sorted| ==> exists k :: 0 <= k < |entries| && sorted[i] == canon[k]
    ensures forall k :: 0 <= k < |entries| ==> canon[k] in sorted
  {
    Ordering.SortByKeeps(canon, KeyOf);
    forall i | 0 <= i < |sorted|
      ensures exists k :: 0 <= k < |entries| && sorted[i] == canon[k]
    {
      assert sorted[i] in multiset(canon);
    }
    forall k | 0 <= k < |entries|
      ensures canon[k] in sorted
    {
      assert canon[k] in multiset(sorted);
    }
  }

  lemma SameKeys(sorted: seq<Entry>, entries: seq<Entry>, canon: seq<Entry>)
    requires |canon| == |entries| && forall k :: 0 <= k < |entries| ==> canon[k].key == entries[k].key
    requires forall i :: 0 <= i < |sorted| ==> exists k :: 0 <= k < |entries| && sorted[i] == canon[k]
    requires forall k :: 0 <= k < |entries| ==> canon[k] in sorted
    ensures Keys(sorted) == Keys(entries)
  {
    forall key
      ensures key in Keys(sorted) <==> key in Keys(entries)
    {
      if key in Keys(sorted) {
        var i :| 0 <= i < |sorted| && sorted[i].key == key;
        var k :| 0 <= k < |entries| && sorted[i] == canon[k];
        assert entries[k].key == key;
      }
      if key in Keys(entries) {
        var k :| 0 <= k < |entries| && entries[k].key == key;
        var i :| 0 <= i < |sorted| && sorted[i] == canon[k];
        assert sorted[i].key == key;
      }
    }
  }

  /** What is read back from the canonical text is the tree itself, up to the order of entries, and its
      keys ascend by code point in every dictionary. */
  lemma CanonicalTextHoldsTree(v: Value)
    requires Plain(v)
    ensures CanonicalText(v).Ok?
    ensures var r := Parse(CanonicalText(v).value);
            r.Some? && r.value.1 == "" && Same(r.value.0, v) && KeysAscend(r.value.0)
  {
    CanonicalTextParses(v);
    CanonIsSame(v);
    CanonAscends(v);
  }

  // ---------- what is refused ----------

  /** A float or a foreign object somewhere in the tree. */
  ghost predicate HasForeignLeaf(v: Value) {
    match v
    case List(items) => exists i :: 0 <= i < |items| && HasForeignLeaf(items[i])
    case Dict(entries) => exists i :: 0 <= i < |entries| && HasForeignLeaf(entries[i].value)
    case Float => true
    case Foreign => true
    case _ => false
  }

  lemma {:induction false} RefusedExactlyForForeignLeaves(v: Value)
    ensures CanonicalText(v).Err? <==> HasForeignLeaf(v)
    decreases v
  {
    match v
    case List(items) =>
      forall i | 0 <= i < |items|
        ensures Refusal(items[i]).Some? <==> HasForeignLeaf(items[i])
      {
        RefusedExactlyForForeignLeaves(items[i]);
      }
    case Dict(entries) =>
      forall i | 0 <= i < |entries|
        ensures Refusal(entries[i].value).Some? <==> HasForeignLeaf(entries[i].value)
      {
        RefusedExactlyForForeignLeaves(entries[i].value);
      }
    case _ =>
  }

  /** A leaf of the given kind somewhere in the tree. */
  ghost predicate HasLeaf(v: Value, leaf: Value) {
    match v
    case List(items) => exists i :: 0 <= i < |items| && HasLeaf(items[i], leaf)
    case Dict(entries) => exists i :: 0 <= i < |entries| && HasLeaf(entries[i].value, leaf)
    case _ => v == leaf
  }

  /** The refusal names what is there: a float, or an object of a foreign type. */
  lemma {:induction false} RefusalNamesLeaf(v: Value)
    ensures CanonicalText(v) == Err(FloatNotPermitted) ==> HasLeaf(v, Float)
    ensures CanonicalText(v) == Err(UnsupportedType) ==> HasLeaf(v, Foreign)
    decreases v
  {
    match v
    case List(items) => FirstRefusal(items);
    case Dict(entries) => FirstEntryRefusal(entries);
    case _ =>
  }

  lemma {:induction false} FirstRefusal(items: seq<Value>)
    ensures RefusalIn(items) == Some(FloatNotPermitted) ==> exists i :: 0 <= i < |items| && HasLeaf(items[i], Float)
    ensures RefusalIn(items) == Some(UnsupportedType) ==> exists i :: 0 <= i < |items| && HasLeaf(items[i], Foreign)
    decreases items
  {
    if items != [] {
      RefusalNamesLeaf(items[0]);
      FirstRefusal(items[1..]);
      assert forall i :: 0 <= i < |items[1..]| ==> items[1..][i] == items[i + 1];
    }
  }

  lemma {:induction false} FirstEntryRefusal(entries: seq<Entry>)
    ensures RefusalAmong(entries) == Some(FloatNotPermitted) ==>
              exists i :: 0 <= i < |entries| && HasLeaf(entries[i].value, Float)
    ensures RefusalAmong(entries) == Some(UnsupportedType) ==>
              exists i :: 0 <= i < |entries| && HasLeaf(entries[i].value, Foreign)
    decreases entries
  {
    if entries != [] {
      RefusalNamesLeaf(entries[0].value);
      FirstEntryRefusal(entries[1..]);
      assert forall i :: 0 <= i < |entries[1..]| ==> entries[1..][i] == entries[i + 1];
    }
  }

  lemma {:induction false} PlainHasNoForeignLeaf(v: Value)
    requires Plain(v)
    ensures !HasForeignLeaf(v)
    decreases v
  {
    match v
    case List(items) =>
      forall i | 0 <= i < |items|
        ensures !HasForeignLeaf(items[i])
      {
        PlainHasNoForeignLeaf(items[i]);
      }
    case Dict(entries) =>
      forall i | 0 <= i < |entries|
        ensures !HasForeignLeaf(entries[i].value)
      {
        PlainHasNoForeignLeaf(entries[i].value);
      }
    case _ =>
  }

  lemma PlainIsAccepted(v: Value)
    requires Plain(v)
    ensures CanonicalText(v) == Ok(Print(Canon(v)))
  {
    PlainHasNoForeignLeaf(v);
    RefusedExactlyForForeignLeaves(v);
  }

  // ---------- equal text means equal up to insertion order ----------

  /** Sorting two dictionaries gives one result exactly when they hold the same entries. */
  lemma SortedEqually(es: seq<Entry>, fs: seq<Entry>)
    requires DistinctKeys(es) && DistinctKeys(fs)
    ensures Ordering.SortBy(es, KeyOf) == Ordering.SortBy(fs, KeyOf) <==> multiset(es) == multiset(fs)
  {
    Ordering.SortByKeeps(es, KeyOf);
    Ordering.SortByKeeps(fs, KeyOf);
    if multiset(es) == multiset(fs) {
      Ordering.DistinctDetermines(es, KeyOf);
      Ordering.SortByOrderFree(es, fs, KeyOf);
    }
  }

  ghost predicate Agree(es: seq<Entry>, fs: seq<Entry>) {
    && Keys(es) == Keys(fs)
    && forall i, j :: 0 <= i < |es| && 0 <= j < |fs| && es[i].key == fs[j].key ==> es[i].value == fs[j].value
  }

  lemma SameEntriesAgree(es: seq<Entry>, fs: seq<Entry>)
    requires DistinctKeys(es) && DistinctKeys(fs) && multiset(es) == multiset(fs)
    ensures Agree(es, fs)
  {
    forall e | e in es
      ensures e in fs
    {
      assert e in multiset(es);
    }
    forall f | f in fs
      ensures f in es
    {
      assert f in multiset(fs);
    }
    assert forall i :: 0 <= i < |es| ==> es[i] in fs;
    assert forall j :: 0 <= j < |fs| ==> fs[j] in es;
  }

  lemma AgreeingEntriesSame(es: seq<Entry>, fs: seq<Entry>)
    requires DistinctKeys(es) && DistinctKeys(fs) && Agree(es, fs)
    ensures multiset(es) == multiset(fs)
  {
    AgreeingWithin(es, fs);
    AgreeingWithin(fs, es);
    assert multiset(es) <= multiset(fs) <= multiset(es);
  }

  lemma AgreeingWithin(es: seq<Entry>, fs: seq<Entry>)
    requires DistinctKeys(es) && Agree(es, fs)
    ensures multiset(es) <= multiset(fs)
  {
    forall e | e in multiset(es)
      ensures multiset(es)[e] <= multiset(fs)[e]
    {
      Ordering.DistinctOnce(es, KeyOf, e);
      var i :| 0 <= i < |es| && es[i] == e;
      assert e.key in Keys(fs);
      var j :| 0 <= j < |fs| && fs[j].key == e.key;
      assert fs[j] == e;
    }
  }

  lemma SortedExactlyWhenAgree(es: seq<Entry>, fs: seq<Entry>)
    requires DistinctKeys(es) && DistinctKeys(fs)
    ensures Ordering.SortBy(es, KeyOf) == Ordering.SortBy(fs, KeyOf) <==> Agree(es, fs)
  {
    SortedEqually(es, fs);
    if Agree(es, fs) {
      AgreeingEntriesSame(es, fs);
    } else if multiset(es) == multiset(fs) {
      SameEntriesAgree(es, fs);
    }
  }

  lemma {:induction false} SameCanon(a: Value, b: Value)
    requires Plain(a) && Plain(b)
    ensures Canon(a) == Canon(b) <==> Same(a, b)
    decreases a, 1
  {
    if a.List? && b.List? {
      ListsSameCanon(a, b);
    } else if a.Dict? && b.Dict? {
      SortedExactlyWhenAgree(CanonEntries(a.entries), CanonEntries(b.entries));
      DictsSameCanon(a, b);
    }
  }

  lemma {:induction false} ListsSameCanon(a: Value, b: Value)
    requires Plain(a) && Plain(b) && a.List? && b.List?
    ensures Canon(a) == Canon(b) <==> Same(a, b)
    decreases a, 0
  {
    if |a.items| == |b.items| {
      forall i | 0 <= i < |a.items|
        ensures Canon(a.items[i]) == Canon(b.items[i]) <==> Same(a.items[i], b.items[i])
      {
        SameCanon(a.items[i], b.items[i]);
      }
      assert CanonItems(a.items) == CanonItems(b.items) <==>
        forall i :: 0 <= i < |a.items| ==> CanonItems(a.items)[i] == CanonItems(b.items)[i];
    }
  }

  lemma {:induction false} DictsSameCanon(a: Value, b: Value)
    requires Plain(a) && Plain(b) && a.Dict? && b.Dict?
    ensures Same(a, b) <==> Agree(CanonEntries(a.entries), CanonEntries(b.entries))
    decreases a, 0
  {
    var es, fs := CanonEntries(a.entries), CanonEntries(b.entries);
    assert Keys(es) == Keys(a.entries) && Keys(fs) == Keys(b.entries);
    forall i, j | 0 <= i < |a.entries| && 0 <= j < |b.entries|
      ensures es[i].value == fs[j].value <==> Same(a.entries[i].value, b.entries[j].value)
    {
      SameCanon(a.entries[i].value, b.entries[j].value);
    }
  }

  /** The printer is unambiguous: equal text exactly for trees equal up to insertion order. */
  lemma EqualTextExactlyWhenSame(a: Value, b: Value)
    requires Plain(a) && Plain(b)
    ensures CanonicalText(a) == CanonicalText(b) <==> Same(a, b)
  {
    CanonicalTextParses(a);
    CanonicalTextParses(b);
    PlainIsAccepted(a);
    PlainIsAccepted(b);
    SameCanon(a, b);
  }

  // ---------- bytes and hash ----------

  /** The UTF-8 encoding of code points below 128, one byte each. */
  function AsciiBytes(s: string): (r: seq<bv8>)
    requires AllPrintable(s)
    ensures |r| == |s|
  {
    seq(|s|, i requires 0 <= i < |s| => s[i] as int as bv8)
  }

  lemma AsciiBytesInjective(s: string, t: string)
    requires AllPrintable(s) && AllPrintable(t)
    ensures AsciiBytes(s) == AsciiBytes(t) <==> s == t
  {
    if AsciiBytes(s) == AsciiBytes(t) {
      forall i | 0 <= i < |s|
        ensures s[i] == t[i]
      {
        assert AsciiBytes(s)[i] == AsciiBytes(t)[i];
        assert s[i] as int == (s[i] as int as bv8) as int;
        assert t[i] as int == (t[i] as int as bv8) as int;
      }
    }
  }

  lemma DecimalIsPrintable(n: int)
    ensures AllPrintable(Decimal(n))
  {
  }

  /** ensure_ascii: the text holds printable ASCII alone, whatever the strings of the tree hold. */
  lemma {:induction false} TextIsPrintable(v: Value)
    ensures AllPrintable(Print(v))
    decreases v, 1
  {
    match v
    case Int(n) => DecimalIsPrintable(n);
    case Str(s) => EscapesArePrintable(s);
    case List(items) => ItemsArePrintable(items);
    case Dict(entries) => EntriesArePrintable(entries);
    case _ =>
  }

  lemma {:induction false} ItemsArePrintable(items: seq<Value>)
    ensures AllPrintable(PrintItems(items))
    decreases items, 0
  {
    if items != [] {
      TextIsPrintable(items[0]);
      ItemsArePrintable(items[1..]);
    }
  }

  lemma {:induction false} EntriesArePrintable(entries: seq<Entry>)
    ensures AllPrintable(PrintEntries(entries))
    decreases entries, 0
  {
    if entries != [] {
      EscapesArePrintable(entries[0].key);
      TextIsPrintable(entries[0].value);
      EntriesArePrintable(entries[1..]);
    }
  }

  /** The canonical bytes of a plain tree. */
  function CanonicalBytes(v: Value): seq<bv8> {
    TextIsPrintable(Canon(v));
    AsciiBytes(Print(Canon(v)))
  }

  /** With a digest free of collisions, equal canonical hashes mean trees equal up to insertion
      order, and conversely for any digest. */
  lemma HashIdentifiesTree(a: Value, b: Value, digest: seq<bv8> -> string)
    requires Plain(a) && Plain(b)
    requires forall x, y :: digest(x) == digest(y) ==> x == y
    ensures digest(CanonicalBytes(a)) == digest(CanonicalBytes(b)) <==> Same(a, b)
  {
    TextIsPrintable(Canon(a));
    TextIsPrintable(Canon(b));
    AsciiBytesInjective(Print(Canon(a)), Print(Canon(b)));
    PlainIsAccepted(a);
    PlainIsAccepted(b);
    EqualTextExactlyWhenSame(a, b);
  }
}
