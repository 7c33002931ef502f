/** The canonical printer of candidate-selection.ts, and the parser that undoes it.

  Two trees print alike exactly when they are equal as key-to-value maps, whatever order
  their keys were inserted in, and up to one thing: an array that holds `undefined` alone
  prints as an empty one.
*/
module StableJson {
  import opened JsonText
  import Utf8Order

  datatype Entry<T> = Entry(key: string, value: T)

  /** `Undefined` may stand in an object, where the printer drops it, or in an array, where it prints as nothing. */
  datatype Json = Undefined | Null | Bool(flag: bool) | Number(number: int) | Text(text: string)
                | Array(items: seq<Json>) | Object(fields: seq<Entry<Json>>)

  // ---- Sorting entries by key ----

  function Insert<T>(e: Entry<T>, s: seq<Entry<T>>): seq<Entry<T>> {
    if s == [] || Utf8Order.Less(e.key, s[0].key) then [e] + s else [s[0]] + Insert(e, s[1..])
  }

  function Sort<T>(s: seq<Entry<T>>): seq<Entry<T>> { if s == [] then [] else Insert(s[0], Sort(s[1..])) }

  predicate Sorted<T>(s: seq<Entry<T>>) { forall i, j | 0 <= i < j < |s| :: Utf8Order.Less(s[i].key, s[j].key) }

  predicate DistinctKeys<T>(s: seq<Entry<T>>) { forall i, j | 0 <= i < j < |s| :: s[i].key != s[j].key }

  // ---- The printer ----

  function Join(texts: seq<string>): string {
    if texts == [] then "" else if |texts| == 1 then texts[0] else texts[0] + "," + Join(texts[1..])
  }

  function Print(t: Json): string
    decreases t
  {
    match t
    case Undefined => ""
    case Null => "null"
    case Bool(b) => if b then "true" else "false"
    case Number(n) => IntText(n)
    case Text(s) => Quote(s)
    case Array(items) => "[" + Join(PrintAll(items)) + "]"
    case Object(fields) => "{" + Join(Members(Sort(PrintFields(fields)))) + "}"
  }

  function PrintAll(items: seq<Json>): seq<string>
    decreases items
  {
    if items == [] then [] else [Print(items[0])] + PrintAll(items[1..])
  }

  function PrintFields(fields: seq<Entry<Json>>): seq<Entry<string>>
    decreases fields
  {
    if fields == [] then []
    else if fields[0].value.Undefined? then PrintFields(fields[1..])
    else [Entry(fields[0].key, Print(fields[0].value))] + PrintFields(fields[1..])
  }

  function Members(entries: seq<Entry<string>>): seq<string> {
    if entries == [] then [] else [Quote(entries[0].key) + ":" + entries[0].value] + Members(entries[1..])
  }

  // ---- What a tree means ----

  datatype Value = VUndefined | VNull | VBool(flag: bool) | VNumber(number: int) | VText(text: string)
                 | VArray(items: seq<Value>) | VObject(fields: map<string, Value>)

  function Meaning(t: Json): Value
    decreases t
  {
    match t
    case Undefined => VUndefined
    case Null => VNull
    case Bool(b) => VBool(b)
    case Number(n) => VNumber(n)
    case Text(s) => VText(s)
    case Array(items) => VArray(Meanings(items))
    case Object(fields) => VObject(FieldMeanings(fields))
  }

  function Meanings(items: seq<Json>): seq<Value>
    decreases items
  {
    if items == [] then [] else [Meaning(items[0])] + Meanings(items[1..])
  }

  function FieldMeanings(fields: seq<Entry<Json>>): map<string, Value>
    decreases fields
  {
    if fields == [] then map[]
    else if fields[0].value.Undefined? then FieldMeanings(fields[1..])
    else FieldMeanings(fields[1..])[fields[0].key := Meaning(fields[0].value)]
  }

  /** What the printer is given: an object's keys are distinct. `lone` says whether an array may hold `undefined`
    alone. */
  predicate Tree(t: Json, lone: bool)
    decreases t
  {
    match t
    case Undefined => false
    case Array(items) => (lone || items != [Undefined]) && Trees(items, lone)
    case Object(fields) => DistinctKeys(fields) && FieldTrees(fields, lone)
    case _ => true
  }

  predicate Trees(items: seq<Json>, lone: bool)
    decreases items
  {
    items == [] || ((items[0].Undefined? || Tree(items[0], lone)) && Trees(items[1..], lone))
  }

  predicate FieldTrees(fields: seq<Entry<Json>>, lone: bool)
    decreases fields
  {
    fields == [] || ((fields[0].value.Undefined? || Tree(fields[0].value, lone)) && FieldTrees(fields[1..], lone))
  }

  // ---- Normal form: sorted, nothing undefined in objects ----

  function Normal(t: Json): Json
    decreases t
  {
    match t
    case Array(items) => Array(NormalAll(items))
    case Object(fields) => Object(Sort(NormalFields(fields)))
    case _ => t
  }

  function NormalAll(items: seq<Json>): seq<Json>
    decreases items
  {
    if items == [] then [] else [Normal(items[0])] + NormalAll(items[1..])
  }

  function NormalFields(fields: seq<Entry<Json>>): seq<Entry<Json>>
    decreases fields
  {
    if fields == [] then []
    else if fields[0].value.Undefined? then NormalFields(fields[1..])
    else [Entry(fields[0].key, Normal(fields[0].value))] + NormalFields(fields[1..])
  }

  predicate IsNormal(t: Json)
    decreases t
  {
    match t
    case Undefined => false
    case Array(items) => items != [Undefined] && AllNormal(items)
    case Object(fields) => Sorted(fields) && FieldsNormal(fields)
    case _ => true
  }

  predicate AllNormal(items: seq<Json>)
    decreases items
  {
    items == [] || ((items[0].Undefined? || IsNormal(items[0])) && AllNormal(items[1..]))
  }

  predicate FieldsNormal(fields: seq<Entry<Json>>)
    decreases fields
  {
    fields == [] || (IsNormal(fields[0].value) && FieldsNormal(fields[1..]))
  }

  function Keys<T>(s: seq<Entry<T>>): set<string> { set i | 0 <= i < |s| :: s[i].key }

  lemma {:induction false} InsertKeys<T>(e: Entry<T>, s: seq<Entry<T>>)
    ensures Keys(Insert(e, s)) == Keys(s) + {e.key}
    decreases |s|
  {
    hide Keys, Utf8Order.Less;
    KeysPush(e, s);
    if s != [] {
      InsertKeys(e, s[1..]);
      KeysPush(s[0], Insert(e, s[1..]));
      KeysPush(s[0], s[1..]);
      assert s == [s[0]] + s[1..];
    }
  }

  lemma KeysPush<T>(e: Entry<T>, s: seq<Entry<T>>)
    ensures Keys([e] + s) == Keys(s) + {e.key}
  {
    forall i | 0 <= i < |s| ensures s[i].key in Keys([e] + s) { assert ([e] + s)[i + 1] == s[i]; }
    assert ([e] + s)[0] == e;
  }

  /** Sorted means: the first key is below all others, and the rest is sorted. */
  lemma SortedPush<T>(e: Entry<T>, s: seq<Entry<T>>)
    ensures Sorted([e] + s) <==> Sorted(s) && forall k | k in Keys(s) :: Utf8Order.Less(e.key, k)
  {
    var all := [e] + s;
    if Sorted(all) {
      forall i, j | 0 <= i < j < |s| ensures Utf8Order.Less(s[i].key, s[j].key) {
        assert all[i + 1] == s[i] && all[j + 1] == s[j];
      }
      forall k | k in Keys(s) ensures Utf8Order.Less(e.key, k) {
        var i :| 0 <= i < |s| && s[i].key == k;
        assert all[i + 1] == s[i] && all[0] == e;
      }
    }
    if Sorted(s) && forall k | k in Keys(s) :: Utf8Order.Less(e.key, k) {
      forall i, j | 0 <= i < j < |all| ensures Utf8Order.Less(all[i].key, all[j].key) {
        assert s[j - 1].key in Keys(s);
      }
    }
  }

  lemma {:induction false} InsertSorted<T>(e: Entry<T>, s: seq<Entry<T>>)
    requires Sorted(s) && e.key !in Keys(s)
    ensures Sorted(Insert(e, s))
    decreases |s|
  {
    hide Sorted, Keys, Utf8Order.Less;
    if s == [] {
      SortedSingle(e);
    } else {
      assert s == [s[0]] + s[1..];
      SortedPush(s[0], s[1..]);
      KeysPush(s[0], s[1..]);
      Utf8Order.TotalOrder(e.key, s[0].key, s[0].key);
      if Utf8Order.Less(e.key, s[0].key) {
        forall k | k in Keys(s) ensures Utf8Order.Less(e.key, k) {
          Utf8Order.TotalOrder(e.key, s[0].key, k);
        }
        SortedPush(e, s);
      } else {
        InsertSorted(e, s[1..]);
        InsertKeys(e, s[1..]);
        SortedPush(s[0], Insert(e, s[1..]));
      }
    }
  }

  lemma SortedSingle<T>(e: Entry<T>)
    ensures Sorted([e]) && [e] + [] == [e]
  {
  }

  lemma {:induction false} SortSorts<T>(s: seq<Entry<T>>)
    requires DistinctKeys(s)
    ensures Sorted(Sort(s)) && Keys(Sort(s)) == Keys(s)
    decreases |s|
  {
    if s != [] {
      SortSorts(s[1..]);
      assert s[0].key !in Keys(s[1..]);
      InsertSorted(s[0], Sort(s[1..]));
      InsertKeys(s[0], Sort(s[1..]));
      assert s == [s[0]] + s[1..];
      KeysPush(s[0], s[1..]);
    }
  }

  /** Sorting what is sorted changes nothing. */
  lemma {:induction false} SortIdle<T>(s: seq<Entry<T>>)
    requires Sorted(s)
    ensures Sort(s) == s
    decreases |s|
  {
    if s != [] {
      SortIdle(s[1..]);
      assert |s| > 1 ==> Utf8Order.Less(s[0].key, s[1].key);
    }
  }

  // ---- Normalising keeps both the text and the meaning ----

  predicate AllDefined(fields: seq<Entry<Json>>) { forall i | 0 <= i < |fields| :: !fields[i].value.Undefined? }

  lemma {:induction false} NormalKeys(fields: seq<Entry<Json>>)
    requires DistinctKeys(fields) && FieldTrees(fields, false)
    ensures var n := NormalFields(fields);
      DistinctKeys(n) && Keys(n) <= Keys(fields) && AllDefined(n) && Keys(PrintFields(fields)) == Keys(n) &&
      DistinctKeys(PrintFields(fields))
    decreases |fields|
  {
    if fields != [] {
      NormalKeys(fields[1..]);
      assert fields == [fields[0]] + fields[1..];
      KeysPush(fields[0], fields[1..]);
      assert fields[0].key !in Keys(fields[1..]);
      if !fields[0].value.Undefined? {
        var e, f := Entry(fields[0].key, Normal(fields[0].value)), Entry(fields[0].key, Print(fields[0].value));
        KeysPush(e, NormalFields(fields[1..]));
        KeysPush(f, PrintFields(fields[1..]));
      }
    }
  }

  lemma {:induction false} InsertNormal(e: Entry<Json>, s: seq<Entry<Json>>)
    requires IsNormal(e.value) && FieldsNormal(s)
    ensures FieldsNormal(Insert(e, s))
    decreases |s|
  {
    if s != [] && !Utf8Order.Less(e.key, s[0].key) {
      InsertNormal(e, s[1..]);
      assert Insert(e, s)[1..] == Insert(e, s[1..]);
    } else {
      assert ([e] + s)[1..] == s;
    }
  }

  lemma {:induction false} SortNormal(s: seq<Entry<Json>>)
    requires FieldsNormal(s)
    ensures FieldsNormal(Sort(s))
    decreases |s|
  {
    if s != [] {
      SortNormal(s[1..]);
      InsertNormal(s[0], Sort(s[1..]));
    }
  }

  lemma {:induction false} NormalIsNormal(t: Json)
    requires Tree(t, false)
    ensures IsNormal(Normal(t))
    decreases t
  {
    match t
    case Array(items) => NormalAllNormal(items);
    case Object(fields) =>
      NormalFieldsNormal(fields);
      NormalKeys(fields);
      SortSorts(NormalFields(fields));
      SortNormal(NormalFields(fields));
    case _ =>
  }

  lemma {:induction false} NormalAllNormal(items: seq<Json>)
    requires Trees(items, false)
    ensures AllNormal(NormalAll(items)) && (NormalAll(items) == [Undefined] ==> items == [Undefined])
    decreases items
  {
    if items != [] {
      if !items[0].Undefined? { NormalIsNormal(items[0]); }
      NormalAllNormal(items[1..]);
      assert NormalAll(items)[1..] == NormalAll(items[1..]);
      if NormalAll(items) == [Undefined] {
        assert NormalAll(items[1..]) == [] && items[1..] == [];
        assert NormalAll(items)[0] == Undefined && items == [items[0]];
      }
    }
  }

  lemma {:induction false} NormalFieldsNormal(fields: seq<Entry<Json>>)
    requires FieldTrees(fields, false)
    ensures FieldsNormal(NormalFields(fields))
    decreases fields
  {
    if fields != [] {
      NormalFieldsNormal(fields[1..]);
      if !fields[0].value.Undefined? {
        NormalIsNormal(fields[0].value);
        assert NormalFields(fields)[1..] == NormalFields(fields[1..]);
      }
    }
  }

  lemma {:induction false} InsertPrints(e: Entry<Json>, s: seq<Entry<Json>>)
    requires !e.value.Undefined? && AllDefined(s)
    ensures PrintFields(Insert(e, s)) == Insert(Entry(e.key, Print(e.value)), PrintFields(s))
    decreases |s|
  {
    hide Print;
    if s == [] || Utf8Order.Less(e.key, s[0].key) {
      assert ([e] + s)[1..] == s;
    } else {
      InsertPrints(e, s[1..]);
      assert Insert(e, s)[1..] == Insert(e, s[1..]);
      assert PrintFields(s)[1..] == PrintFields(s[1..]);
    }
  }

  lemma {:induction false} InsertDefined(e: Entry<Json>, s: seq<Entry<Json>>)
    requires !e.value.Undefined? && AllDefined(s)
    ensures AllDefined(Insert(e, s))
    decreases |s|
  {
    if s != [] && !Utf8Order.Less(e.key, s[0].key) { InsertDefined(e, s[1..]); }
  }

  /** Sorting the entries and printing them commute. */
  lemma {:induction false} SortPrints(s: seq<Entry<Json>>)
    requires AllDefined(s)
    ensures PrintFields(Sort(s)) == Sort(PrintFields(s)) && AllDefined(Sort(s))
    decreases |s|
  {
    if s != [] {
      SortPrints(s[1..]);
      InsertPrints(s[0], Sort(s[1..]));
      InsertDefined(s[0], Sort(s[1..]));
      assert PrintFields(s)[1..] == PrintFields(s[1..]);
    }
  }

  lemma {:induction false} PrintNormal(t: Json)
    requires Tree(t, false)
    ensures Print(Normal(t)) == Print(t)
    decreases t
  {
    match t
    case Array(items) => PrintNormalAll(items);
    case Object(fields) =>
      PrintNormalFields(fields);
      NormalKeys(fields);
      SortPrints(NormalFields(fields));
      SortSorts(PrintFields(fields));
      SortIdle(Sort(PrintFields(fields)));
    case _ =>
  }

  lemma {:induction false} PrintNormalAll(items: seq<Json>)
    requires Trees(items, false)
    ensures PrintAll(NormalAll(items)) == PrintAll(items)
    decreases items
  {
    if items != [] {
      if !items[0].Undefined? { PrintNormal(items[0]); }
      PrintNormalAll(items[1..]);
      assert NormalAll(items)[1..] == NormalAll(items[1..]);
    }
  }

  lemma {:induction false} PrintNormalFields(fields: seq<Entry<Json>>)
    requires FieldTrees(fields, false)
    ensures PrintFields(NormalFields(fields)) == PrintFields(fields)
    decreases fields
  {
    if fields != [] {
      PrintNormalFields(fields[1..]);
      if !fields[0].value.Undefined? {
        PrintNormal(fields[0].value);
        NormalIsNormal(fields[0].value);
        assert NormalFields(fields)[1..] == NormalFields(fields[1..]);
      }
    }
  }

  lemma {:induction false} InsertMeans(e: Entry<Json>, s: seq<Entry<Json>>)
    requires !e.value.Undefined? && AllDefined(s) && e.key !in Keys(s)
    ensures FieldMeanings(Insert(e, s)) == FieldMeanings(s)[e.key := Meaning(e.value)]
    decreases |s|
  {
    hide Meaning;
    if s == [] || Utf8Order.Less(e.key, s[0].key) {
      assert ([e] + s)[1..] == s;
    } else {
      assert s == [s[0]] + s[1..];
      KeysPush(s[0], s[1..]);
      InsertMeans(e, s[1..]);
      assert Insert(e, s)[1..] == Insert(e, s[1..]);
    }
  }

  lemma {:induction false} SortMeans(s: seq<Entry<Json>>)
    requires AllDefined(s) && DistinctKeys(s)
    ensures FieldMeanings(Sort(s)) == FieldMeanings(s)
    decreases |s|
  {
    if s != [] {
      SortMeans(s[1..]);
      SortSorts(s[1..]);
      SortPrints(s[1..]);
      assert s[0].key !in Keys(s[1..]);
      InsertMeans(s[0], Sort(s[1..]));
    }
  }

  lemma {:induction false} MeaningNormal(t: Json)
    requires Tree(t, false)
    ensures Meaning(Normal(t)) == Meaning(t)
    decreases t
  {
    match t
    case Array(items) => MeaningNormalAll(items);
    case Object(fields) =>
      MeaningNormalFields(fields);
      NormalKeys(fields);
      SortMeans(NormalFields(fields));
    case _ =>
  }

  lemma {:induction false} MeaningNormalAll(items: seq<Json>)
    requires Trees(items, false)
    ensures Meanings(NormalAll(items)) == Meanings(items)
    decreases items
  {
    if items != [] {
      if !items[0].Undefined? { MeaningNormal(items[0]); }
      MeaningNormalAll(items[1..]);
      assert NormalAll(items)[1..] == NormalAll(items[1..]);
    }
  }

  lemma {:induction false} MeaningNormalFields(fields: seq<Entry<Json>>)
    requires FieldTrees(fields, false)
    ensures FieldMeanings(NormalFields(fields)) == FieldMeanings(fields)
    decreases fields
  {
    if fields != [] {
      MeaningNormalFields(fields[1..]);
      if !fields[0].value.Undefined? {
        MeaningNormal(fields[0].value);
        NormalIsNormal(fields[0].value);
        assert NormalFields(fields)[1..] == NormalFields(fields[1..]);
      }
    }
  }

  // ---- A normal tree is determined by its meaning ----

  lemma {:induction false} MeaningKeys(s: seq<Entry<Json>>)
    requires FieldsNormal(s)
    ensures FieldMeanings(s).Keys == Keys(s)
    decreases |s|
  {
    if s != [] {
      MeaningKeys(s[1..]);
      assert s == [s[0]] + s[1..];
      KeysPush(s[0], s[1..]);
    }
  }

  lemma {:induction false} NormalFromMeaning(a: Json, b: Json)
    requires IsNormal(a) && IsNormal(b) && Meaning(a) == Meaning(b)
    ensures a == b
    decreases a
  {
    match a
    case Array(items) => ItemsFromMeaning(items, b.items);
    case Object(fields) => FieldsFromMeaning(fields, b.fields);
    case _ =>
  }

  lemma {:induction false} ItemsFromMeaning(a: seq<Json>, b: seq<Json>)
    requires AllNormal(a) && AllNormal(b) && Meanings(a) == Meanings(b)
    ensures a == b
    decreases a
  {
    if a != [] && b != [] {
      assert Meanings(a)[0] == Meanings(b)[0] && Meanings(a)[1..] == Meanings(b)[1..];
      if !a[0].Undefined? && !b[0].Undefined? { NormalFromMeaning(a[0], b[0]); }
      ItemsFromMeaning(a[1..], b[1..]);
      assert a == [a[0]] + a[1..] && b == [b[0]] + b[1..];
    }
  }

  /** The least key of a sorted object is its first. */
  lemma SameFirst(a: seq<Entry<Json>>, b: seq<Entry<Json>>)
    requires Sorted(a) && Sorted(b) && Keys(a) == Keys(b) && a != [] && b != []
    ensures a[0].key == b[0].key
    ensures Sorted(a[1..]) && Sorted(b[1..]) && a[0].key !in Keys(a[1..]) && b[0].key !in Keys(b[1..])
  {
    assert a == [a[0]] + a[1..] && b == [b[0]] + b[1..];
    SortedPush(a[0], a[1..]);
    SortedPush(b[0], b[1..]);
    KeysPush(a[0], a[1..]);
    KeysPush(b[0], b[1..]);
    hide Sorted, Keys, Utf8Order.Less;
    Utf8Order.TotalOrder(a[0].key, b[0].key, a[0].key);
    Utf8Order.TotalOrder(a[0].key, a[0].key, a[0].key);
    Utf8Order.TotalOrder(b[0].key, b[0].key, b[0].key);
    assert a[0].key in Keys(b) && b[0].key in Keys(a);
  }

  lemma {:induction false} FieldsFromMeaning(a: seq<Entry<Json>>, b: seq<Entry<Json>>)
    requires Sorted(a) && FieldsNormal(a) && Sorted(b) && FieldsNormal(b) && FieldMeanings(a) == FieldMeanings(b)
    ensures a == b
    decreases a
  {
    MeaningKeys(a);
    MeaningKeys(b);
    NoKeys(a);
    NoKeys(b);
    if a != [] && b != [] {
      hide Sorted, Keys;
      SameFirst(a, b);
      FirstMeans(a);
      FirstMeans(b);
      NormalFromMeaning(a[0].value, b[0].value);
      FieldsFromMeaning(a[1..], b[1..]);
      assert a == [a[0]] + a[1..] && b == [b[0]] + b[1..];
    }
  }

  lemma NoKeys<T>(s: seq<Entry<T>>)
    ensures Keys(s) == {} <==> s == []
  {
    if s != [] { assert s[0].key in Keys(s); }
  }

  lemma FirstMeans(s: seq<Entry<Json>>)
    requires s != [] && FieldsNormal(s) && s[0].key !in Keys(s[1..])
    ensures s[0].key in FieldMeanings(s) && FieldMeanings(s)[s[0].key] == Meaning(s[0].value)
    ensures FieldMeanings(s[1..]) == FieldMeanings(s) - {s[0].key}
  {
    hide Meaning;
    MeaningKeys(s[1..]);
  }

  // ---- The parser ----

  /** A value at the front of a text. */
  function ScanValue(s: string): (r: Option<Scan<Json>>)
    ensures r.Some? ==> |r.value.rest| < |s|
    decreases |s|, 1
  {
    if s == "" then None
    else if s[0] == '"' then
      var t := ScanBody(s[1..]);
      if t.None? then None else Some(Scan(Text(t.value.value), t.value.rest))
    else if "null" <= s then Some(Scan(Null, s[4..]))
    else if "true" <= s then Some(Scan(Bool(true), s[4..]))
    else if "false" <= s then Some(Scan(Bool(false), s[5..]))
    else if s[0] == '[' then
      if "]" <= s[1..] then Some(Scan(Array([]), s[2..]))
      else
        var items := ScanItems(s[1..]);
        if items.None? then None else Some(Scan(Array(items.value.value), items.value.rest))
    else if s[0] == '{' then
      if "}" <= s[1..] then Some(Scan(Object([]), s[2..]))
      else
        var fields := ScanFields(s[1..]);
        if fields.None? then None else Some(Scan(Object(fields.value.value), fields.value.rest))
    else
      var n := ScanInt(s);
      if n.None? then None else Some(Scan(Number(n.value.value), n.value.rest))
  }

  /** An item, or the nothing that `undefined` prints as. */
  function ScanItem(s: string): (r: Option<Scan<Json>>)
    ensures r.Some? ==> |r.value.rest| <= |s|
    decreases |s|, 2
  {
    if s != "" && (s[0] == ',' || s[0] == ']') then Some(Scan(Undefined, s)) else ScanValue(s)
  }

  /** One or more items and the closing bracket. */
  function ScanItems(s: string): (r: Option<Scan<seq<Json>>>)
    ensures r.Some? ==> |r.value.rest| < |s|
    decreases |s|, 3
  {
    var v := ScanItem(s);
    if v.None? || v.value.rest == "" then None
    else if v.value.rest[0] == ']' then Some(Scan([v.value.value], v.value.rest[1..]))
    else if v.value.rest[0] == ',' then
      var more := ScanItems(v.value.rest[1..]);
      if more.None? then None else Some(Scan([v.value.value] + more.value.value, more.value.rest))
    else None
  }

  function ScanMember(s: string): (r: Option<Scan<Entry<Json>>>)
    ensures r.Some? ==> |r.value.rest| < |s|
    decreases |s|, 2
  {
    if s == "" || s[0] != '"' then None
    else
      var k := ScanBody(s[1..]);
      if k.None? || !(":" <= k.value.rest) then None
      else
        var v := ScanValue(k.value.rest[1..]);
        if v.None? then None else Some(Scan(Entry(k.value.value, v.value.value), v.value.rest))
  }

  /** One or more members and the closing brace. */
  function ScanFields(s: string): (r: Option<Scan<seq<Entry<Json>>>>)
    ensures r.Some? ==> |r.value.rest| < |s|
    decreases |s|, 3
  {
    var m := ScanMember(s);
    if m.None? || m.value.rest == "" then None
    else if m.value.rest[0] == '}' then Some(Scan([m.value.value], m.value.rest[1..]))
    else if m.value.rest[0] == ',' then
      var more := ScanFields(m.value.rest[1..]);
      if more.None? then None else Some(Scan([m.value.value] + more.value.value, more.value.rest))
    else None
  }

  lemma ScansText(t: string, rest: string)
    ensures ScanValue(Quote(t) + rest) == Some(Scan(Text(t), rest))
  {
    var s := Quote(t) + rest;
    assert s[1..] == Body(t) + "\"" + rest;
    BodyScans(t, rest);
  }

  lemma ScansWord(w: string, rest: string)
    requires w in {"null", "true", "false"}
    ensures ScanValue(w + rest) == Some(Scan(if w == "null" then Null else Bool(w == "true"), rest))
  {
    hide ScanBody, ScanInt;
    var s := w + rest;
    assert s[|w|..] == rest;
    assert w <= s;
    if w == "true" {
      assert s[0] == 't';
    } else if w == "false" {
      assert s[0] == 'f';
    }
  }

  lemma ScansNumber(n: int, rest: string)
    requires NoDigitNext(rest)
    ensures ScanValue(IntText(n) + rest) == Some(Scan(Number(n), rest))
  {
    hide ScanBody, IntText;
    IntScans(n, rest);
    var s := IntText(n) + rest;
    assert s[0] != '"' && s[0] != '[' && s[0] != '{' && s[0] != 'n' && s[0] != 't' && s[0] != 'f';
  }

  /** The parser reads back every normal tree from its text, whatever follows. */
  lemma {:induction false} ValueScans(t: Json, rest: string)
    requires IsNormal(t) && NoDigitNext(rest)
    ensures ScanValue(Print(t) + rest) == Some(Scan(t, rest))
    decreases t, 0
  {
    hide ScanValue, ScanItems, ScanFields, Join, Members, PrintFields, PrintAll, Quote, IntText;
    match t
    case Null => ScansWord("null", rest);
    case Bool(b) => ScansWord(if b then "true" else "false", rest);
    case Number(n) => ScansNumber(n, rest);
    case Text(x) => ScansText(x, rest);
    case Array(items) =>
      if items == [] {
        EmptyScans(rest);
      } else {
        ItemsScan(items, rest);
        ListStarts(items, rest);
        ArrayScans(Join(PrintAll(items)), items, rest);
      }
    case Object(fields) =>
      PrintsSorted(fields);
      if fields == [] {
        EmptyScans(rest);
      } else {
        FieldsScan(fields, rest);
        ObjectScans(Join(Members(PrintFields(fields))), fields, rest);
      }
  }

  lemma EmptyScans(rest: string)
    ensures "[" + Join(PrintAll([])) + "]" == "[]" && ScanValue("[]" + rest) == Some(Scan(Array([]), rest))
    ensures "{" + Join(Members(PrintFields([]))) + "}" == "{}" && ScanValue("{}" + rest) == Some(Scan(Object([]), rest))
  {
    assert ("[]" + rest)[2..] == rest && ("{}" + rest)[2..] == rest;
    assert "]" <= ("[]" + rest)[1..] && "}" <= ("{}" + rest)[1..];
    assert ("[]" + rest)[0] == '[' && ("{}" + rest)[0] == '{';
  }

  lemma ArrayScans(list: string, items: seq<Json>, rest: string)
    requires ScanItems(list + "]" + rest) == Some(Scan(items, rest)) && !("]" <= list + "]" + rest)
    ensures ScanValue("[" + list + "]" + rest) == Some(Scan(Array(items), rest))
  {
    hide ScanItems;
    var s := "[" + list + "]" + rest;
    assert s[1..] == list + "]" + rest && s[0] == '[';
  }

  lemma ObjectScans(list: string, fields: seq<Entry<Json>>, rest: string)
    requires ScanFields(list + "}" + rest) == Some(Scan(fields, rest)) && list != "" && list[0] == '"'
    ensures ScanValue("{" + list + "}" + rest) == Some(Scan(Object(fields), rest))
  {
    hide ScanFields;
    var s := "{" + list + "}" + rest;
    assert s[1..] == list + "}" + rest && s[0] == '{';
    assert s[1..][0] == '"';
  }

  lemma ListStarts(items: seq<Json>, rest: string)
    requires items != [] && items != [Undefined] && AllNormal(items)
    ensures !("]" <= Join(PrintAll(items)) + "]" + rest)
  {
    var list, first := Join(PrintAll(items)), Print(items[0]);
    PrintAllLength(items);
    if items[0].Undefined? {
      assert items == [Undefined] + items[1..];
      assert |PrintAll(items)| > 1 && PrintAll(items)[0] == "" && list[0] == ',';
      assert (list + "]" + rest)[0] == ',';
    } else {
      PrintStarts(items[0]);
      assert first <= list;
      assert (list + "]" + rest)[0] == first[0];
    }
  }

  lemma PrintStarts(t: Json)
    requires IsNormal(t)
    ensures Print(t) != "" && Print(t)[0] != ']' && Print(t)[0] != ','
  {
  }

  /** A sorted object is printed in its own order. */
  lemma PrintsSorted(fields: seq<Entry<Json>>)
    requires Sorted(fields) && FieldsNormal(fields)
    ensures Sort(PrintFields(fields)) == PrintFields(fields)
  {
    NormalDefined(fields);
    SortIdle(fields);
    SortPrints(fields);
  }

  lemma {:induction false} NormalDefined(fields: seq<Entry<Json>>)
    requires FieldsNormal(fields)
    ensures AllDefined(fields)
    decreases |fields|
  {
    if fields != [] {
      NormalDefined(fields[1..]);
      forall i | 0 <= i < |fields| ensures !fields[i].value.Undefined? {
        if i > 0 { assert fields[i] == fields[1..][i - 1]; }
      }
    }
  }

  lemma {:induction false} ItemsScan(items: seq<Json>, rest: string)
    requires items != [] && AllNormal(items)
    ensures ScanItems(Join(PrintAll(items)) + "]" + rest) == Some(Scan(items, rest))
    decreases items
  {
    hide ScanValue, ScanItem, Print;
    var x := items[0];
    if |items| == 1 {
      assert items == [x] && PrintAll(items) == [Print(x)];
      ItemScans(x, "]" + rest);
      assert Print(x) + "]" + rest == Print(x) + ("]" + rest);
      assert ("]" + rest)[1..] == rest;
    } else {
      var more := Join(PrintAll(items[1..])) + "]" + rest;
      assert PrintAll(items)[1..] == PrintAll(items[1..]) && |PrintAll(items)| > 1 by { PrintAllLength(items); }
      assert Join(PrintAll(items)) + "]" + rest == Print(x) + ("," + more);
      assert ("," + more)[1..] == more;
      ItemScans(x, "," + more);
      ItemsScan(items[1..], rest);
      assert items == [x] + items[1..];
    }
  }

  lemma {:induction false} ItemScans(t: Json, rest: string)
    requires (t.Undefined? || IsNormal(t)) && rest != "" && (rest[0] == ']' || rest[0] == ',')
    ensures ScanItem(Print(t) + rest) == Some(Scan(t, rest))
    decreases t, 1
  {
    if t.Undefined? {
      assert Print(t) + rest == rest;
    } else {
      PrintStarts(t);
      hide Print, ScanValue;
      ValueScans(t, rest);
      assert (Print(t) + rest)[0] == Print(t)[0];
    }
  }

  lemma {:induction false} PrintAllLength(items: seq<Json>)
    ensures |PrintAll(items)| == |items|
    decreases |items|
  {
    if items != [] { PrintAllLength(items[1..]); }
  }

  lemma {:induction false} MembersLength(fields: seq<Entry<Json>>)
    requires AllDefined(fields)
    ensures |Members(PrintFields(fields))| == |fields|
    decreases |fields|
  {
    if fields != [] {
      hide Print, Quote;
      MembersLength(fields[1..]);
      assert PrintFields(fields)[1..] == PrintFields(fields[1..]);
    }
  }

  lemma MemberScans(e: Entry<Json>, rest: string)
    requires ScanValue(Print(e.value) + rest) == Some(Scan(e.value, rest))
    ensures ScanMember(Quote(e.key) + ":" + Print(e.value) + rest) == Some(Scan(e, rest))
  {
    hide ScanValue, Print;
    var value := Print(e.value) + rest;
    var s := Quote(e.key) + ":" + Print(e.value) + rest;
    assert s[1..] == Body(e.key) + "\"" + (":" + value);
    assert (":" + value)[1..] == value;
    BodyScans(e.key, ":" + value);
  }

  lemma {:induction false} FieldsScan(fields: seq<Entry<Json>>, rest: string)
    requires fields != [] && FieldsNormal(fields)
    ensures var list := Join(Members(PrintFields(fields)));
      ScanFields(list + "}" + rest) == Some(Scan(fields, rest)) && list != "" && list[0] == '"'
    decreases fields
  {
    hide ScanFields, ScanMember, Quote, Print, Join, Members, PrintFields;
    var e := fields[0];
    QuoteStarts(e.key);
    JoinsMember(fields);
    var text := Quote(e.key) + ":" + Print(e.value);
    if |fields| == 1 {
      MemberScan(e, "}" + rest);
      LastField(e, text, rest);
      assert fields == [e];
    } else {
      var more := Join(Members(PrintFields(fields[1..]))) + "}" + rest;
      assert Join(Members(PrintFields(fields))) + "}" + rest == text + ("," + more);
      MemberScan(e, "," + more);
      FieldsScan(fields[1..], rest);
      NextField(e, text, more, fields[1..], rest);
      assert fields == [e] + fields[1..];
    }
  }

  lemma LastField(e: Entry<Json>, text: string, rest: string)
    requires ScanMember(text + ("}" + rest)) == Some(Scan(e, "}" + rest))
    ensures ScanFields(text + "}" + rest) == Some(Scan([e], rest))
  {
    hide ScanMember;
    assert text + "}" + rest == text + ("}" + rest);
    assert ("}" + rest)[1..] == rest;
  }

  lemma NextField(e: Entry<Json>, text: string, more: string, tail: seq<Entry<Json>>, rest: string)
    requires ScanMember(text + ("," + more)) == Some(Scan(e, "," + more)) && ScanFields(more) == Some(Scan(tail, rest))
    ensures ScanFields(text + ("," + more)) == Some(Scan([e] + tail, rest))
  {
    hide ScanMember;
    assert ("," + more)[1..] == more;
  }

  lemma {:induction false} MemberScan(e: Entry<Json>, rest: string)
    requires IsNormal(e.value) && NoDigitNext(rest)
    ensures ScanMember(Quote(e.key) + ":" + Print(e.value) + rest) == Some(Scan(e, rest))
    decreases e
  {
    ValueScans(e.value, rest);
    MemberScans(e, rest);
  }

  lemma JoinsMember(fields: seq<Entry<Json>>)
    requires fields != [] && FieldsNormal(fields)
    ensures var text := Quote(fields[0].key) + ":" + Print(fields[0].value);
      Join(Members(PrintFields(fields))) ==
        if |fields| == 1 then text else text + "," + Join(Members(PrintFields(fields[1..])))
  {
    NormalDefined(fields);
    hide Print, Quote;
    var text := Quote(fields[0].key) + ":" + Print(fields[0].value);
    var all, more := Members(PrintFields(fields)), Members(PrintFields(fields[1..]));
    assert PrintFields(fields)[1..] == PrintFields(fields[1..]);
    assert all == [text] + more;
    MembersLength(fields);
    assert all[1..] == more;
  }

  lemma QuoteStarts(s: string)
    ensures Quote(s) != "" && Quote(s)[0] == '"'
  {
  }

  // ---- The result ----

  /** The parser recovers from the text the tree the printer was given, in normal form. */
  lemma ParserUndoesPrinter(t: Json)
    requires Tree(t, false)
    ensures ScanValue(Print(t)) == Some(Scan(Normal(t), ""))
  {
    NormalIsNormal(t);
    PrintNormal(t);
    ValueScans(Normal(t), "");
    assert Print(Normal(t)) + "" == Print(t);
  }

  /** Where no array holds `undefined` alone: equal text exactly when equal as key-to-value maps. */
  lemma PrintInjective(a: Json, b: Json)
    requires Tree(a, false) && Tree(b, false)
    ensures Print(a) == Print(b) <==> Meaning(a) == Meaning(b)
  {
    MeaningNormal(a);
    MeaningNormal(b);
    ParserUndoesPrinter(a);
    ParserUndoesPrinter(b);
    NormalIsNormal(a);
    NormalIsNormal(b);
    PrintNormal(a);
    PrintNormal(b);
    if Meaning(a) == Meaning(b) { NormalFromMeaning(Normal(a), Normal(b)); }
  }

  // ---- Arrays that hold `undefined` alone ----

  /** The same tree with each of them emptied. */
  function Cleared(t: Json): Json
    decreases t
  {
    match t
    case Array(items) => if items == [Undefined] then Array([]) else Array(ClearedAll(items))
    case Object(fields) => Object(ClearedFields(fields))
    case _ => t
  }

  function ClearedAll(items: seq<Json>): (r: seq<Json>)
    ensures |r| == |items|
    decreases items
  {
    if items == [] then [] else [Cleared(items[0])] + ClearedAll(items[1..])
  }

  function ClearedFields(fields: seq<Entry<Json>>): (r: seq<Entry<Json>>)
    ensures |r| == |fields| && forall i | 0 <= i < |r| :: r[i].key == fields[i].key
    decreases fields
  {
    if fields == [] then [] else [Entry(fields[0].key, Cleared(fields[0].value))] + ClearedFields(fields[1..])
  }

  /** Clearing changes no text, and leaves no such array. */
  lemma {:induction false} ClearedPrints(t: Json)
    requires Tree(t, true)
    ensures Print(Cleared(t)) == Print(t) && Tree(Cleared(t), false)
    decreases t
  {
    match t
    case Array(items) =>
      if items == [Undefined] {
        assert PrintAll([Undefined]) == [""];
      } else {
        ClearedAllPrints(items);
      }
    case Object(fields) => ClearedFieldsPrint(fields);
    case _ =>
  }

  lemma {:induction false} ClearedAllPrints(items: seq<Json>)
    requires Trees(items, true)
    ensures PrintAll(ClearedAll(items)) == PrintAll(items) && Trees(ClearedAll(items), false)
    ensures ClearedAll(items) == [Undefined] ==> items == [Undefined]
    decreases items
  {
    if items != [] {
      assert ClearedAll(items)[0] == Cleared(items[0]) && (|items| == 1 ==> items == [items[0]]);
      if !items[0].Undefined? { ClearedPrints(items[0]); }
      ClearedAllPrints(items[1..]);
      assert ClearedAll(items)[1..] == ClearedAll(items[1..]);
    }
  }

  lemma {:induction false} ClearedFieldsPrint(fields: seq<Entry<Json>>)
    requires FieldTrees(fields, true)
    ensures PrintFields(ClearedFields(fields)) == PrintFields(fields) && FieldTrees(ClearedFields(fields), false)
    decreases fields
  {
    if fields != [] {
      if !fields[0].value.Undefined? { ClearedPrints(fields[0].value); }
      ClearedFieldsPrint(fields[1..]);
      assert ClearedFields(fields)[1..] == ClearedFields(fields[1..]);
    }
  }

  /** It changes the meaning exactly of the trees that have such an array. */
  lemma {:induction false} ClearedMeans(t: Json)
    requires Tree(t, true)
    ensures Meaning(Cleared(t)) == Meaning(t) <==> Tree(t, false)
    decreases t
  {
    match t
    case Array(items) =>
      if items == [Undefined] {
        assert |Meanings(items)| == 1;
      } else {
        ClearedAllMeans(items);
      }
    case Object(fields) => ClearedFieldsMean(fields);
    case _ =>
  }

  lemma {:induction false} ClearedAllMeans(items: seq<Json>)
    requires Trees(items, true)
    ensures Meanings(ClearedAll(items)) == Meanings(items) <==> Trees(items, false)
    decreases items
  {
    if items != [] {
      if !items[0].Undefined? { ClearedMeans(items[0]); }
      ClearedAllMeans(items[1..]);
      var a, b := Meanings(ClearedAll(items)), Meanings(items);
      assert ClearedAll(items)[1..] == ClearedAll(items[1..]);
      assert a[1..] == Meanings(ClearedAll(items[1..])) && b[1..] == Meanings(items[1..]);
      assert a[0] == Meaning(Cleared(items[0])) && b[0] == Meaning(items[0]);
    }
  }

  lemma {:induction false} ClearedFieldsMean(fields: seq<Entry<Json>>)
    requires FieldTrees(fields, true) && DistinctKeys(fields)
    ensures FieldMeanings(ClearedFields(fields)) == FieldMeanings(fields) <==> FieldTrees(fields, false)
    decreases fields
  {
    if fields != [] {
      var e, rest := fields[0], fields[1..];
      if !e.value.Undefined? { ClearedMeans(e.value); }
      ClearedFieldsMean(rest);
      assert ClearedFields(fields)[1..] == ClearedFields(rest);
      FieldFirst(fields);
      FieldFirst(ClearedFields(fields));
      hide Meaning, Cleared, Tree, DistinctKeys, FieldMeanings, ClearedFields;
    }
  }

  lemma FieldFirst(s: seq<Entry<Json>>)
    requires s != [] && DistinctKeys(s)
    ensures s[0].value.Undefined? ==> FieldMeanings(s) == FieldMeanings(s[1..])
    ensures !s[0].value.Undefined? ==>
      && s[0].key in FieldMeanings(s) && FieldMeanings(s)[s[0].key] == Meaning(s[0].value)
      && FieldMeanings(s[1..]) == FieldMeanings(s) - {s[0].key}
      && FieldMeanings(s) == FieldMeanings(s[1..])[s[0].key := Meaning(s[0].value)]
  {
    hide Meaning;
    FieldKeys(s[1..]);
    assert s[0].key !in Keys(s[1..]);
  }

  lemma {:induction false} FieldKeys(s: seq<Entry<Json>>)
    ensures FieldMeanings(s).Keys <= Keys(s)
    decreases |s|
  {
    if s != [] {
      FieldKeys(s[1..]);
      assert s == [s[0]] + s[1..];
      KeysPush(s[0], s[1..]);
    }
  }

  /** Of any two trees: equal text exactly when they are equal as key-to-value maps up to such arrays. */
  lemma PrintExactly(a: Json, b: Json)
    requires Tree(a, true) && Tree(b, true)
    ensures Print(a) == Print(b) <==> Meaning(Cleared(a)) == Meaning(Cleared(b))
  {
    ClearedPrints(a);
    ClearedPrints(b);
    PrintInjective(Cleared(a), Cleared(b));
  }

  /** The trees whose text another tree without such arrays has are exactly those that have one. */
  lemma UndefinedItemIsLost(a: Json)
    requires Tree(a, true)
    ensures (exists b :: Tree(b, false) && Print(b) == Print(a) && Meaning(b) != Meaning(a)) <==> !Tree(a, false)
  {
    ClearedPrints(a);
    ClearedMeans(a);
    if b :| Tree(b, false) && Print(b) == Print(a) && Meaning(b) != Meaning(a) {
      if Tree(a, false) { PrintInjective(a, b); }
    }
  }

  /** For one, `[undefined]` and `[]`. Longer arrays keep their place: `[undefined, null]` is not `[null]`. */
  lemma LoneUndefined()
    ensures Print(Array([Undefined])) == Print(Array([])) && Meaning(Array([Undefined])) != Meaning(Array([]))
    ensures Print(Array([Undefined, Null])) != Print(Array([Null]))
  {
    ClearedPrints(Array([Undefined]));
    ClearedMeans(Array([Undefined]));
    PrintInjective(Array([Undefined, Null]), Array([Null]));
    assert |Meanings([Undefined, Null])| == 2 && |Meanings([Null])| == 1;
  }
}
