/**
 The canonical JSON form of values. A Python mapping or set is given with its iteration order, which
 the canonical form must not depend on. The printer that makes it a text is in module `JsonText`.
 */
module Canonical {
  import opened JsonText

  /** A mapping key: `text` is its string form, which keys of different kinds can share. */
  datatype Key = Key(kind: string, text: string)

  datatype Entry = Entry(key: Key, child: Value)

  datatype Value =
    | Null | Str(text: string) | Bool(b: bool) | Int(n: int) | Float(x: FloatText) | NotFinite(text: string)
    | Decimal(text: string) | Enum(inner: Value) | Time(iso: string) | Path(text: string) | Bytes(base64: string)
    | Record(entries: seq<Entry>) | Dict(entries: seq<Entry>) | List(items: seq<Value>) | SetOf(items: seq<Value>)
    | Other(typeName: string, rendered: string)

  // ----- Sorting by printed text -----

  ghost function Insert(j: Json, sorted: seq<Json>): seq<Json> {
    if sorted == [] then [j]
    else if Leq(Dumps(j), Dumps(sorted[0])) then [j] + sorted
    else [sorted[0]] + Insert(j, sorted[1..])
  }

  ghost function SortByText(js: seq<Json>): seq<Json> {
    if js == [] then [] else Insert(js[0], SortByText(js[1..]))
  }

  /** No later text before an earlier one. */
  ghost predicate Sorted(js: seq<Json>) {
    js == [] || ((forall k :: 0 <= k < |js| ==> Leq(Dumps(js[0]), Dumps(js[k]))) && Sorted(js[1..]))
  }

  lemma {:induction false} InsertPermutes(j: Json, sorted: seq<Json>)
    ensures multiset(Insert(j, sorted)) == multiset(sorted) + multiset{j}
  {
    if sorted != [] {
      assert sorted == [sorted[0]] + sorted[1..];
      if !Leq(Dumps(j), Dumps(sorted[0])) {
        InsertPermutes(j, sorted[1..]);
      }
    }
  }

  ghost predicate Above(text: string, js: seq<Json>) {
    forall k :: 0 <= k < |js| ==> Leq(text, Dumps(js[k]))
  }

  lemma {:induction false} InsertAbove(text: string, j: Json, sorted: seq<Json>)
    requires Above(text, sorted) && Leq(text, Dumps(j))
    ensures Above(text, Insert(j, sorted))
  {
    if sorted != [] && !Leq(Dumps(j), Dumps(sorted[0])) {
      InsertAbove(text, j, sorted[1..]);
    }
  }

  lemma AboveCons(j: Json, js: seq<Json>)
    requires Sorted(js) && Above(Dumps(j), js)
    ensures Sorted([j] + js)
  {
    LeqTotal(Dumps(j), Dumps(j));
    var all := [j] + js;
    assert all[1..] == js;
    forall k | 0 <= k < |all|
      ensures Leq(Dumps(all[0]), Dumps(all[k]))
    {
      assert k > 0 ==> all[k] == js[k - 1];
    }
  }

  lemma SortedAbove(text: string, js: seq<Json>)
    requires Sorted(js) && (js != [] ==> Leq(text, Dumps(js[0])))
    ensures Above(text, js)
  {
    forall k | 0 <= k < |js|
      ensures Leq(text, Dumps(js[k]))
    {
      LeqTransitive(text, Dumps(js[0]), Dumps(js[k]));
    }
  }

  lemma {:induction false} InsertSorts(j: Json, sorted: seq<Json>)
    requires Sorted(sorted)
    ensures Sorted(Insert(j, sorted))
  {
    if sorted == [] {
      AboveCons(j, []);
      assert [j] + [] == [j];
    } else if Leq(Dumps(j), Dumps(sorted[0])) {
      SortedAbove(Dumps(j), sorted);
      AboveCons(j, sorted);
    } else {
      LeqTotal(Dumps(j), Dumps(sorted[0]));
      InsertSorts(j, sorted[1..]);
      assert Above(Dumps(sorted[0]), sorted[1..]);
      InsertAbove(Dumps(sorted[0]), j, sorted[1..]);
      AboveCons(sorted[0], Insert(j, sorted[1..]));
    }
  }

  lemma {:induction false} SortSorts(js: seq<Json>)
    ensures Sorted(SortByText(js)) && multiset(SortByText(js)) == multiset(js)
  {
    if js != [] {
      SortSorts(js[1..]);
      InsertSorts(js[0], SortByText(js[1..]));
      InsertPermutes(js[0], SortByText(js[1..]));
      assert js == [js[0]] + js[1..];
    }
  }

  lemma LeastIsFirst(a: seq<Json>, b: seq<Json>)
    requires Sorted(a) && Sorted(b) && multiset(a) == multiset(b) && a != [] && b != []
    ensures Leq(Dumps(a[0]), Dumps(b[0]))
  {
    assert b[0] in multiset(b);
    assert b[0] in a;
  }

  lemma TailElements(js: seq<Json>)
    requires js != []
    ensures js == [js[0]] + js[1..] && multiset(js[1..]) == multiset(js) - multiset{js[0]}
  {
    assert js == [js[0]] + js[1..];
  }

  lemma SameFirst(a: seq<Json>, b: seq<Json>)
    requires Sorted(a) && Sorted(b) && multiset(a) == multiset(b) && a != [] && b != []
    ensures a[0] == b[0]
  {
    LeastIsFirst(a, b);
    LeastIsFirst(b, a);
    LeqAntisymmetric(Dumps(a[0]), Dumps(b[0]));
    DumpsIsInjective(a[0], b[0]);
  }

  /** What is sorted by its printed text is determined by its elements alone. */
  lemma {:induction false} SortedIsUnique(a: seq<Json>, b: seq<Json>)
    requires Sorted(a) && Sorted(b) && multiset(a) == multiset(b)
    ensures a == b
  {
    if a == [] || b == [] {
      assert |multiset(a)| == |a| && |multiset(b)| == |b|;
    } else {
      SameFirst(a, b);
      TailElements(a);
      TailElements(b);
      SortedIsUnique(a[1..], b[1..]);
    }
  }

  // ----- Conversion -----

  const MAX_REPR := 1000

  function Bounded(s: string): string {
    if |s| > MAX_REPR then s[..MAX_REPR - 3] + "..." else s
  }

  function Texts(es: seq<Entry>): set<string> { set i | 0 <= i < |es| :: es[i].key.text }

  /** Where a text stands last: of entries with one text the last one wins. */
  function LastAt(es: seq<Entry>, text: string): (i: nat)
    requires text in Texts(es)
    ensures i < |es| && es[i].key.text == text
    ensures forall j :: i < j < |es| ==> es[j].key.text != text
  {
    if es[|es| - 1].key.text == text then |es| - 1
    else
      assert forall j :: 0 <= j < |es| - 1 ==> es[..|es| - 1][j] == es[j];
      LastAt(es[..|es| - 1], text)
  }

  ghost function ToJson(v: Value): Json
    decreases v
  {
    match v
    case Null => JNull
    case Str(s) => JStr(s)
    case Bool(b) => JBool(b)
    case Int(n) => JInt(n)
    case Float(x) => JFloat(x)
    case NotFinite(s) => JStr(s)
    case Decimal(s) => JStr(s)
    case Enum(inner) => ToJson(inner)
    case Time(s) => JStr(s)
    case Path(s) => JStr(s)
    case Bytes(s) => JObject(map["__type__" := JStr("bytes"), "base64" := JStr(s)])
    case Record(es) => JObject(map k | k in Texts(es) :: ToJson(es[LastAt(es, k)].child))
    case Dict(es) => JObject(map k | k in Texts(es) :: ToJson(es[LastAt(es, k)].child))
    case List(items) => JList(seq(|items|, i requires 0 <= i < |items| => ToJson(items[i])))
    case SetOf(items) => JList(SortByText(seq(|items|, i requires 0 <= i < |items| => ToJson(items[i]))))
    case Other(t, r) => JObject(map["__type__" := JStr(t), "repr" := JStr(Bounded(r))])
  }

  ghost function CanonicalJson(v: Value): string { Dumps(ToJson(v)) }

  // ----- What each kind of value becomes -----

  /** The first 1000 characters are kept, or 997 and three dots. */
  predicate IsCutShort(t: string, rendered: string) {
    && (|rendered| <= 1000 ==> t == rendered)
    && (|rendered| > 1000 ==> |t| == 1000 && t[..997] == rendered[..997] && t[997..] == "...")
  }

  lemma BoundedCuts(rendered: string)
    ensures IsCutShort(Bounded(rendered), rendered)
  {
  }

  /** Numbers that JSON lacks, times and paths become their texts, and an enumeration's member its value. */
  lemma TextsConvert(s: string, inner: Value)
    ensures ToJson(NotFinite(s)) == ToJson(Decimal(s)) == ToJson(Str(s)) == JStr(s)
    ensures ToJson(Time(s)) == ToJson(Path(s)) == ToJson(Str(s))
    ensures ToJson(Enum(inner)) == ToJson(inner)
  {
  }

  /** Bytes and unknown objects become tagged objects, the latter with their rendering cut short. */
  lemma TagsConvert(s: string, typeName: string)
    ensures ToJson(Bytes(s)) == JObject(map["__type__" := JStr("bytes"), "base64" := JStr(s)])
    ensures var j := ToJson(Other(typeName, s));
            && j.JObject? && j.fields.Keys == {"__type__", "repr"} && j.fields["__type__"] == JStr(typeName)
            && j.fields["repr"].JStr? && IsCutShort(j.fields["repr"].text, s)
  {
    BoundedCuts(s);
  }

  /** A mapping or record has the texts of its keys as fields, each with the value of the last entry of that text. */
  lemma EntriesConvert(es: seq<Entry>, i: nat)
    requires i < |es| && forall j :: i < j < |es| ==> es[j].key.text != es[i].key.text
    ensures ToJson(Dict(es)) == ToJson(Record(es)) && ToJson(Dict(es)).JObject?
    ensures var fields := ToJson(Dict(es)).fields;
            && es[i].key.text in fields && fields[es[i].key.text] == ToJson(es[i].child)
            && forall k :: k in fields ==> exists n :: 0 <= n < |es| && es[n].key.text == k
  {
    ObjectOf(es);
    assert es[i].key.text in Texts(es);
    var last := LastAt(es, es[i].key.text);
    assert last == i;
    forall k | k in ToJson(Dict(es)).fields
      ensures exists n :: 0 <= n < |es| && es[n].key.text == k
    {
      assert es[LastAt(es, k)].key.text == k;
    }
  }

  /** A set becomes the list of its converted members, in the order of their texts. */
  lemma SetsConvert(items: seq<Value>)
    ensures var j := ToJson(SetOf(items));
            && j.JList? && Sorted(j.items)
            && multiset(j.items) == multiset(Converted(items))
  {
    SortSorts(Converted(items));
  }

  // ----- Idempotence -----

  /** A plain Python value that stands for a JSON value; its dictionaries may have any insertion order. */
  ghost predicate StandsFor(v: Value, j: Json)
    decreases v
  {
    match v
    case Null => j == JNull
    case Str(s) => j == JStr(s)
    case Bool(b) => j == JBool(b)
    case Int(n) => j == JInt(n)
    case Float(x) => j == JFloat(x)
    case List(items) => j.JList? && |j.items| == |items| && forall i :: 0 <= i < |items| ==>
        StandsFor(items[i], j.items[i])
    case Dict(es) =>
      && j.JObject? && Texts(es) == j.fields.Keys && DistinctTexts(es)
      && forall i :: 0 <= i < |es| ==> es[i].key.text in j.fields && StandsFor(es[i].child, j.fields[es[i].key.text])
    case _ => false
  }

  ghost predicate DistinctTexts(es: seq<Entry>) {
    forall i, j :: 0 <= i < j < |es| ==> es[i].key.text != es[j].key.text
  }

  /** Converting what a conversion gave changes nothing. */
  lemma {:induction false} ToJsonIsIdempotent(v: Value, j: Json)
    requires StandsFor(v, j)
    ensures ToJson(v) == j
    decreases v
  {
    match v
    case List(items) =>
      forall i | 0 <= i < |items|
        ensures ToJson(items[i]) == j.items[i]
      {
        ToJsonIsIdempotent(items[i], j.items[i]);
      }
    case Dict(es) =>
      forall i | 0 <= i < |es|
        ensures ToJson(es[i].child) == j.fields[es[i].key.text]
      {
        ToJsonIsIdempotent(es[i].child, j.fields[es[i].key.text]);
      }
      FieldsAre(es, j.fields);
    case _ =>
  }

  lemma FieldsAre(es: seq<Entry>, fields: map<string, Json>)
    requires Texts(es) == fields.Keys
    requires forall i :: 0 <= i < |es| ==> es[i].key.text in fields && ToJson(es[i].child) == fields[es[i].key.text]
    ensures ToJson(Dict(es)) == JObject(fields)
  {
    assert ToJson(Dict(es)).fields == fields;
  }

  /** Every JSON value can be read back as a plain value. */
  lemma {:induction false} EveryJsonHasAValue(j: Json) returns (v: Value)
    ensures StandsFor(v, j)
    decreases j, 2
  {
    match j
    case JNull => v := Null;
    case JStr(s) => v := Str(s);
    case JBool(b) => v := Bool(b);
    case JInt(n) => v := Int(n);
    case JFloat(x) => v := Float(x);
    case JList(items) =>
      var values := ValuesOf(j, |items|);
      v := List(values);
    case JObject(fields) =>
      var entries := EntriesOf(j, fields.Keys);
      v := Dict(entries);
  }

  lemma {:induction false} ValuesOf(j: Json, n: nat) returns (values: seq<Value>)
    requires j.JList? && n <= |j.items|
    ensures |values| == n && forall i :: 0 <= i < n ==> StandsFor(values[i], j.items[i])
    decreases j, 1, n
  {
    if n == 0 {
      values := [];
    } else {
      values := ValuesOf(j, n - 1);
      var last := EveryJsonHasAValue(j.items[n - 1]);
      values := values + [last];
    }
  }

  lemma TextsSnoc(es: seq<Entry>, e: Entry)
    ensures Texts(es + [e]) == Texts(es) + {e.key.text}
    ensures DistinctTexts(es) && e.key.text !in Texts(es) ==> DistinctTexts(es + [e])
  {
    var all := es + [e];
    assert forall i :: 0 <= i < |es| ==>
        all[i] == es[i] && es[i].key.text in Texts(es) && all[i].key.text in Texts(all);
    assert all[|es|].key.text in Texts(all);
  }

  lemma {:induction false} EntriesOf(j: Json, keys: set<string>) returns (entries: seq<Entry>)
    requires j.JObject? && keys <= j.fields.Keys
    ensures Texts(entries) == keys && DistinctTexts(entries)
    ensures forall i :: 0 <= i < |entries| ==>
            entries[i].key.text in j.fields && StandsFor(entries[i].child, j.fields[entries[i].key.text])
    decreases j, 1, |keys|
  {
    if keys == {} {
      entries := [];
    } else {
      var k :| k in keys;
      var others := EntriesOf(j, keys - {k});
      var child := EveryJsonHasAValue(j.fields[k]);
      entries := others + [Entry(Key("str", k), child)];
      TextsSnoc(others, Entry(Key("str", k), child));
    }
  }

  // ----- Order does not matter -----

  /** The same value up to the iteration order of mappings and sets, at every depth. */
  ghost predicate Same(a: Value, b: Value)
    decreases a
  {
    match a
    case Enum(inner) => b.Enum? && Same(inner, b.inner)
    case List(items) => b.List? && |b.items| == |items| && forall i :: 0 <= i < |items| ==> Same(items[i], b.items[i])
    case SetOf(items) =>
      b.SetOf? && exists ys: seq<Value> ::
          && multiset(ys) == multiset(b.items) && |ys| == |items|
          && forall i :: 0 <= i < |items| ==> Same(items[i], ys[i])
    case Record(es) => b.Record? && |b.entries| == |es| && forall i :: 0 <= i < |es| ==>
        es[i].key == b.entries[i].key && Same(es[i].child, b.entries[i].child)
    case Dict(es) =>
      b.Dict? && exists ys: seq<Entry> ::
          && multiset(ys) == multiset(b.entries) && |ys| == |es|
          && forall i :: 0 <= i < |es| ==> es[i].key == ys[i].key && Same(es[i].child, ys[i].child)
    case _ => a == b
  }

  /** Distinct keys of each mapping have distinct texts, at every depth. */
  ghost predicate WellKeyed(v: Value)
    decreases v
  {
    match v
    case Enum(inner) => WellKeyed(inner)
    case List(items) => forall i :: 0 <= i < |items| ==> WellKeyed(items[i])
    case SetOf(items) => forall i :: 0 <= i < |items| ==> WellKeyed(items[i])
    case Record(es) => DistinctTexts(es) && forall i :: 0 <= i < |es| ==> WellKeyed(es[i].child)
    case Dict(es) => DistinctTexts(es) && forall i :: 0 <= i < |es| ==> WellKeyed(es[i].child)
    case _ => true
  }

  ghost function Converted(items: seq<Value>): seq<Json> {
    seq(|items|, i requires 0 <= i < |items| => ToJson(items[i]))
  }

  function Mapped<A, B>(f: A -> B, xs: seq<A>): seq<B> { seq(|xs|, i requires 0 <= i < |xs| => f(xs[i])) }

  function Without<A>(xs: seq<A>, j: nat): seq<A>
    requires j < |xs|
  {
    xs[..j] + xs[j + 1..]
  }

  lemma ElementsWithout<A>(xs: seq<A>, j: nat)
    requires j < |xs|
    ensures multiset(xs) == multiset(Without(xs, j)) + multiset{xs[j]}
    ensures multiset(Without(xs, j)) == multiset(xs) - multiset{xs[j]}
  {
    assert xs == xs[..j] + [xs[j]] + xs[j + 1..];
  }

  lemma MappedWithout<A, B>(f: A -> B, xs: seq<A>, j: nat)
    requires j < |xs|
    ensures multiset(Mapped(f, xs)) == multiset(Mapped(f, Without(xs, j))) + multiset{f(xs[j])}
  {
    ElementsWithout(Mapped(f, xs), j);
    assert Mapped(f, Without(xs, j)) == Without(Mapped(f, xs), j);
  }

  lemma {:induction false} MappedPermutes<A, B>(f: A -> B, a: seq<A>, b: seq<A>)
    requires multiset(a) == multiset(b)
    ensures multiset(Mapped(f, a)) == multiset(Mapped(f, b))
    decreases |a|
  {
    if a == [] {
      assert |multiset(a)| == |a| && |multiset(b)| == |b|;
    } else {
      assert a[0] in multiset(b);
      var j :| 0 <= j < |b| && b[j] == a[0];
      ElementsWithout(a, 0);
      ElementsWithout(b, j);
      MappedPermutes(f, Without(a, 0), Without(b, j));
      MappedWithout(f, a, 0);
      MappedWithout(f, b, j);
    }
  }

  lemma ConvertedPermutes(a: seq<Value>, b: seq<Value>)
    requires multiset(a) == multiset(b)
    ensures multiset(Converted(a)) == multiset(Converted(b))
  {
    var f := (v: Value) => ToJson(v);
    MappedPermutes(f, a, b);
    assert Mapped(f, a) == Converted(a) && Mapped(f, b) == Converted(b);
  }

  lemma SetOrderDoesNotMatter(a: seq<Value>, b: seq<Value>)
    requires multiset(Converted(a)) == multiset(Converted(b))
    ensures ToJson(SetOf(a)) == ToJson(SetOf(b))
  {
    SortsAgree(Converted(a), Converted(b));
    assert ToJson(SetOf(a)) == JList(SortByText(Converted(a)));
    assert ToJson(SetOf(b)) == JList(SortByText(Converted(b)));
  }

  lemma SortsAgree(a: seq<Json>, b: seq<Json>)
    requires multiset(a) == multiset(b)
    ensures SortByText(a) == SortByText(b)
  {
    SortSorts(a);
    SortSorts(b);
    SortedIsUnique(SortByText(a), SortByText(b));
  }

  lemma MatchedSets(items: seq<Value>, ys: seq<Value>, others: seq<Value>)
    requires multiset(ys) == multiset(others) && |ys| == |items|
    requires forall i :: 0 <= i < |items| ==> ToJson(items[i]) == ToJson(ys[i])
    ensures ToJson(SetOf(items)) == ToJson(SetOf(others))
  {
    assert Converted(items) == Converted(ys);
    ConvertedPermutes(ys, others);
    SetOrderDoesNotMatter(items, others);
  }

  /** The object of a mapping or record. */
  ghost function Fields(es: seq<Entry>): map<string, Json> {
    map k | k in Texts(es) :: ToJson(es[LastAt(es, k)].child)
  }

  lemma ObjectOf(es: seq<Entry>)
    ensures ToJson(Dict(es)) == JObject(Fields(es)) && ToJson(Record(es)) == JObject(Fields(es))
  {
    assert ToJson(Dict(es)).fields == Fields(es);
    assert ToJson(Record(es)).fields == Fields(es);
  }

  /** Entries that share a text share their conversion. */
  ghost predicate Consistent(es: seq<Entry>) {
    forall i, j :: 0 <= i < |es| && 0 <= j < |es| && es[i].key.text == es[j].key.text ==>
        ToJson(es[i].child) == ToJson(es[j].child)
  }

  lemma FieldAt(es: seq<Entry>, i: nat)
    requires Consistent(es) && i < |es|
    ensures es[i].key.text in Fields(es) && Fields(es)[es[i].key.text] == ToJson(es[i].child)
  {
    assert es[i].key.text in Texts(es);
  }

  lemma SameElements(es: seq<Entry>, ys: seq<Entry>, i: nat) returns (j: nat)
    requires multiset(es) == multiset(ys) && i < |es|
    ensures j < |ys| && ys[j] == es[i]
  {
    assert es[i] in multiset(ys);
    j :| 0 <= j < |ys| && ys[j] == es[i];
  }

  lemma FieldsReordered(es: seq<Entry>, ys: seq<Entry>)
    requires multiset(es) == multiset(ys) && Consistent(es)
    ensures Fields(es) == Fields(ys)
  {
    forall k | k in Texts(es)
      ensures k in Texts(ys)
    {
      var j := SameElements(es, ys, LastAt(es, k));
      assert ys[j].key.text == k;
    }
    forall k | k in Texts(ys)
      ensures k in Texts(es) && Fields(ys)[k] == Fields(es)[k]
    {
      var j := SameElements(ys, es, LastAt(ys, k));
      FieldAt(es, j);
    }
  }

  lemma FieldsMatched(es: seq<Entry>, ys: seq<Entry>)
    requires |es| == |ys| && DistinctTexts(es)
    requires forall i :: 0 <= i < |es| ==> es[i].key == ys[i].key && ToJson(es[i].child) == ToJson(ys[i].child)
    ensures Fields(es) == Fields(ys) && Consistent(ys)
  {
    assert Texts(es) == Texts(ys) by {
      assert forall k :: k in Texts(es) ==> ys[LastAt(es, k)].key.text == k;
      assert forall k :: k in Texts(ys) ==> es[LastAt(ys, k)].key.text == k;
    }
    forall k | k in Texts(es)
      ensures LastAt(es, k) == LastAt(ys, k)
    {
      assert es[LastAt(ys, k)].key.text == es[LastAt(es, k)].key.text;
    }
  }

  /** The canonical form does not depend on the iteration order of mappings and sets at any depth. */
  lemma {:induction false} OrderDoesNotMatter(a: Value, b: Value)
    requires WellKeyed(a) && Same(a, b)
    ensures ToJson(a) == ToJson(b) && CanonicalJson(a) == CanonicalJson(b)
    decreases a
  {
    match a
    case Enum(inner) => OrderDoesNotMatter(inner, b.inner);
    case List(items) => ListOrder(a, b, items);
    case SetOf(items) => SetOrder(a, b, items);
    case Record(es) => RecordOrder(a, b, es);
    case Dict(es) => DictOrder(a, b, es);
    case _ =>
  }

  lemma {:induction false} ListOrder(a: Value, b: Value, items: seq<Value>)
    requires a == List(items) && WellKeyed(a) && Same(a, b)
    ensures ToJson(a) == ToJson(b)
    decreases a, 0
  {
    forall i | 0 <= i < |items|
      ensures ToJson(items[i]) == ToJson(b.items[i])
    {
      OrderDoesNotMatter(items[i], b.items[i]);
    }
  }

  lemma {:induction false} SetOrder(a: Value, b: Value, items: seq<Value>)
    requires a == SetOf(items) && WellKeyed(a) && Same(a, b)
    ensures ToJson(a) == ToJson(b)
    decreases a, 0
  {
    var ys: seq<Value> :| multiset(ys) == multiset(b.items) && |ys| == |items| && forall i :: 0 <= i < |items| ==>
        Same(items[i], ys[i]);
    forall i | 0 <= i < |items|
      ensures ToJson(items[i]) == ToJson(ys[i])
    {
      OrderDoesNotMatter(items[i], ys[i]);
    }
    MatchedSets(items, ys, b.items);
  }

  lemma {:induction false} RecordOrder(a: Value, b: Value, es: seq<Entry>)
    requires a == Record(es) && WellKeyed(a) && Same(a, b)
    ensures ToJson(a) == ToJson(b)
    decreases a, 0
  {
    forall i | 0 <= i < |es|
      ensures ToJson(es[i].child) == ToJson(b.entries[i].child)
    {
      OrderDoesNotMatter(es[i].child, b.entries[i].child);
    }
    FieldsMatched(es, b.entries);
    ObjectOf(es);
    ObjectOf(b.entries);
  }

  lemma {:induction false} DictOrder(a: Value, b: Value, es: seq<Entry>)
    requires a == Dict(es) && WellKeyed(a) && Same(a, b)
    ensures ToJson(a) == ToJson(b)
    decreases a, 0
  {
    var ys: seq<Entry> :| multiset(ys) == multiset(b.entries) && |ys| == |es|
                          && forall i :: 0 <= i < |es| ==> es[i].key == ys[i].key && Same(es[i].child, ys[i].child);
    forall i | 0 <= i < |es|
      ensures ToJson(es[i].child) == ToJson(ys[i].child)
    {
      OrderDoesNotMatter(es[i].child, ys[i].child);
    }
    FieldsMatched(es, ys);
    FieldsReordered(ys, b.entries);
    ObjectOf(es);
    ObjectOf(b.entries);
  }

  /** Two values have one canonical text exactly when they have one canonical form. */
  lemma TextIsTheForm(a: Value, b: Value)
    ensures CanonicalJson(a) == CanonicalJson(b) <==> ToJson(a) == ToJson(b)
  {
    if CanonicalJson(a) == CanonicalJson(b) {
      DumpsIsInjective(ToJson(a), ToJson(b));
    }
  }

  // ----- When the order does matter -----

  ghost predicate AnyOrder(es: seq<Entry>) {
    forall ys: seq<Entry> :: multiset(ys) == multiset(es) ==> ToJson(Dict(ys)) == ToJson(Dict(es))
  }

  function MovedLast(es: seq<Entry>, i: nat): seq<Entry>
    requires i < |es|
  {
    es[..i] + es[i + 1..] + [es[i]]
  }

  lemma MovedLastWins(es: seq<Entry>, i: nat)
    requires i < |es|
    ensures multiset(MovedLast(es, i)) == multiset(es)
    ensures es[i].key.text in Fields(MovedLast(es, i))
            && Fields(MovedLast(es, i))[es[i].key.text] == ToJson(es[i].child)
  {
    assert es == es[..i] + [es[i]] + es[i + 1..];
    var ys := MovedLast(es, i);
    assert ys[|ys| - 1] == es[i];
    assert es[i].key.text in Texts(ys);
  }

  /** A mapping's form is independent of its insertion order exactly when keys with one text have one conversion. */
  lemma AnyOrderIff(es: seq<Entry>)
    ensures AnyOrder(es) <==> Consistent(es)
  {
    if Consistent(es) {
      forall ys: seq<Entry> | multiset(ys) == multiset(es)
        ensures ToJson(Dict(ys)) == ToJson(Dict(es))
      {
        FieldsReordered(es, ys);
        ObjectOf(ys);
        ObjectOf(es);
      }
    }
    if AnyOrder(es) {
      forall i, j | 0 <= i < |es| && 0 <= j < |es| && es[i].key.text == es[j].key.text
        ensures ToJson(es[i].child) == ToJson(es[j].child)
      {
        MovedLastWins(es, i);
        MovedLastWins(es, j);
        assert ToJson(Dict(MovedLast(es, i))) == ToJson(Dict(MovedLast(es, j)));
        ObjectOf(MovedLast(es, i));
        ObjectOf(MovedLast(es, j));
      }
    }
  }

  /** The number 1 and the text "1" as keys of one mapping: which value survives depends on the order. */
  lemma SharedTextDependsOnOrder()
    ensures !AnyOrder([Entry(Key("int", "1"), Bool(true)), Entry(Key("str", "1"), Bool(false))])
  {
    var es := [Entry(Key("int", "1"), Bool(true)), Entry(Key("str", "1"), Bool(false))];
    AnyOrderIff(es);
    assert es[0].key.text == es[1].key.text;
    assert ToJson(es[0].child) == JBool(true) && ToJson(es[1].child) == JBool(false);
  }
}
