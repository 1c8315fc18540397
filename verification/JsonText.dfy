/**
 JSON values and how they are printed: keys sorted, no spaces, text kept as it is but for quotes,
 backslashes and control characters. The printed text determines the value.
 */
module JsonText {

  predicate IsDigit(c: char) { '0' <= c <= '9' }

  predicate IsNumberChar(c: char) { IsDigit(c) || c == '-' || c == '+' || c == '.' || c == 'e' }

  /** The shortest form of a finite float, as Python prints it: never just digits. */
  predicate IsFloatText(s: string) {
    && s != "" && (IsDigit(s[0]) || s[0] == '-') && ('.' in s || 'e' in s)
    && forall i :: 0 <= i < |s| ==> IsNumberChar(s[i])
  }

  /** A finite float, known by its shortest form. */
  type FloatText = s: string | IsFloatText(s) witness "0.0"

  datatype Json =
    | JNull | JStr(text: string) | JBool(b: bool) | JInt(n: int) | JFloat(x: FloatText)
    | JList(items: seq<Json>) | JObject(fields: map<string, Json>)

  // ----- Text order -----

  /** Order by code points. */
  predicate Leq(a: string, b: string) {
    a == "" || (b != "" && (a[0] < b[0] || (a[0] == b[0] && Leq(a[1..], b[1..]))))
  }

  /** One text is not after another if it begins it, or has the smaller code point where they first differ. */
  lemma {:induction false} LeqIff(a: string, b: string)
    ensures Leq(a, b) <==> a <= b || exists n :: 0 <= n < |a| && n < |b| && a[..n] == b[..n] && a[n] < b[n]
  {
    if a != "" && b != "" {
      if a[0] == b[0] {
        LeqIff(a[1..], b[1..]);
        assert a[1..] <= b[1..] <==> a <= b by {
          assert a == [a[0]] + a[1..] && b == [b[0]] + b[1..];
        }
        if n :| 0 <= n < |a[1..]| && n < |b[1..]| && a[1..][..n] == b[1..][..n] && a[1..][n] < b[1..][n] {
          assert a[..n + 1] == [a[0]] + a[1..][..n] && b[..n + 1] == [b[0]] + b[1..][..n];
          assert a[n + 1] < b[n + 1];
        }
        if n :| 0 <= n < |a| && n < |b| && a[..n] == b[..n] && a[n] < b[n] {
          assert n > 0 && a[1..][..n - 1] == a[..n][1..] && b[1..][..n - 1] == b[..n][1..];
          assert a[1..][n - 1] < b[1..][n - 1];
        }
      } else {
        assert a[..0] == b[..0];
        assert forall n :: 0 < n <= |a| && n <= |b| ==> a[..n][0] == a[0] && b[..n][0] == b[0];
      }
    }
  }

  lemma {:induction false} LeqTotal(a: string, b: string)
    ensures Leq(a, b) || Leq(b, a)
  {
    if a != "" && b != "" && a[0] == b[0] {
      LeqTotal(a[1..], b[1..]);
    }
  }

  lemma {:induction false} LeqAntisymmetric(a: string, b: string)
    requires Leq(a, b) && Leq(b, a)
    ensures a == b
  {
    if a != "" && b != "" {
      LeqAntisymmetric(a[1..], b[1..]);
      assert a == [a[0]] + a[1..] && b == [b[0]] + b[1..];
    }
  }

  lemma {:induction false} LeqTransitive(a: string, b: string, c: string)
    requires Leq(a, b) && Leq(b, c)
    ensures Leq(a, c)
  {
    if a != "" && a[0] == b[0] == c[0] {
      LeqTransitive(a[1..], b[1..], c[1..]);
    }
  }

  // ----- Sorted keys -----

  ghost predicate IsLeast(k: string, keys: set<string>) {
    k in keys && forall other :: other in keys ==> Leq(k, other)
  }

  lemma {:induction false} LeastExists(keys: set<string>) returns (k: string)
    requires keys != {}
    ensures IsLeast(k, keys)
    decreases |keys|
  {
    var some :| some in keys;
    var rest := keys - {some};
    LeqTotal(some, some);
    if rest == {} {
      k := some;
      assert keys == {some};
    } else {
      var least := LeastExists(rest);
      LeqTotal(some, least);
      k := if Leq(some, least) then some else least;
      forall other | other in keys
        ensures Leq(k, other)
      {
        if other != some && k == some {
          LeqTransitive(some, least, other);
        }
      }
    }
  }

  ghost function SortedKeys(keys: set<string>): (r: seq<string>)
    ensures forall k :: k in r <==> k in keys
    decreases |keys|
  {
    if keys == {} then []
    else
      var least := Least(keys);
      [least] + SortedKeys(keys - {least})
  }

  ghost function Least(keys: set<string>): (k: string)
    requires keys != {}
    ensures IsLeast(k, keys)
  {
    assert exists k :: IsLeast(k, keys) by {
      var k := LeastExists(keys);
    }
    var k :| IsLeast(k, keys);
    k
  }

  /** The keys are printed in ascending order, each once. */
  lemma {:induction false} KeysAscend(keys: set<string>, i: nat, j: nat)
    requires i < j < |SortedKeys(keys)|
    ensures Leq(SortedKeys(keys)[i], SortedKeys(keys)[j]) && SortedKeys(keys)[i] != SortedKeys(keys)[j]
    decreases i
  {
    var least := Least(keys);
    var rest := SortedKeys(keys - {least});
    assert rest[j - 1] in rest;
    if i > 0 {
      KeysAscend(keys - {least}, i - 1, j - 1);
    }
  }

  // ----- Numbers -----

  function Digit(d: nat): (c: char)
    requires d < 10
    ensures IsDigit(c)
  {
    ('0' as int + d) as char
  }

  function Decimal(n: nat): (s: string)
    ensures s != "" && forall i :: 0 <= i < |s| ==> IsDigit(s[i])
  {
    if n < 10 then [Digit(n)] else Decimal(n / 10) + [Digit(n % 10)]
  }

  lemma {:induction false} DecimalIsInjective(m: nat, n: nat)
    requires Decimal(m) == Decimal(n)
    ensures m == n
  {
    assert (m >= 10 <==> |Decimal(m)| > 1) && (n >= 10 <==> |Decimal(n)| > 1);
    if m >= 10 {
      var a, b := Decimal(m / 10), Decimal(n / 10);
      assert Decimal(m)[..|Decimal(m)| - 1] == a && Decimal(n)[..|Decimal(n)| - 1] == b;
      assert Digit(m % 10) == Decimal(m)[|a|] == Decimal(n)[|b|] == Digit(n % 10);
      DecimalIsInjective(m / 10, n / 10);
    } else {
      assert Decimal(m)[0] == Digit(m) && Decimal(n)[0] == Digit(n);
    }
  }

  function IntText(n: int): (s: string)
    ensures s != "" && (IsDigit(s[0]) || s[0] == '-')
    ensures forall i :: 0 <= i < |s| ==> IsDigit(s[i]) || s[i] == '-'
  {
    if n < 0 then "-" + Decimal(-n) else Decimal(n)
  }

  lemma IntTextIsInjective(m: int, n: int)
    requires IntText(m) == IntText(n)
    ensures m == n
  {
    assert m < 0 ==> IntText(m)[0] == '-' && IntText(m)[1..] == Decimal(-m);
    assert n < 0 ==> IntText(n)[0] == '-' && IntText(n)[1..] == Decimal(-n);
    if m < 0 && n < 0 {
      DecimalIsInjective(-m, -n);
    } else if m >= 0 && n >= 0 {
      DecimalIsInjective(m, n);
    }
  }

  // ----- Strings -----

  function Hex(d: nat): char
    requires d < 16
  {
    if d < 10 then Digit(d) else ('a' as int + (d - 10)) as char
  }

  function Escape(c: char): (s: string)
    ensures s != "" && s[0] != '"'
  {
    if c == '"' then "\\\""
    else if c == '\\' then "\\\\"
    else if c == '\n' then "\\n"
    else if c == '\r' then "\\r"
    else if c == '\t' then "\\t"
    else if c as int == 8 then "\\b"
    else if c as int == 12 then "\\f"
    else if c as int < 32 then "\\u00" + [Hex(c as int / 16), Hex(c as int % 16)]
    else [c]
  }

  function EscapeAll(s: string): string {
    if s == "" then "" else Escape(s[0]) + EscapeAll(s[1..])
  }

  function Quote(s: string): string { "\"" + (EscapeAll(s) + "\"") }

  lemma SplitAt(a: string, x: string, b: string, y: string)
    requires a + x == b + y && |a| == |b|
    ensures a == b && x == y
  {
    assert (a + x)[..|a|] == a && (b + y)[..|b|] == b;
    assert (a + x)[|a|..] == x && (b + y)[|b|..] == y;
  }

  /** The code of an escape: no escape begins with another. */
  lemma EscapeLength(c: char, d: char, x: string, y: string)
    requires Escape(c) + x == Escape(d) + y
    ensures |Escape(c)| == |Escape(d)|
  {
    assert (Escape(c) + x)[0] == Escape(c)[0] && (Escape(d) + y)[0] == Escape(d)[0];
    assert |Escape(c)| > 1 ==> (Escape(c) + x)[1] == Escape(c)[1];
    assert |Escape(d)| > 1 ==> (Escape(d) + y)[1] == Escape(d)[1];
  }

  lemma HexIsInjective(m: nat, n: nat)
    requires m < 32 && n < 32 && Hex(m / 16) == Hex(n / 16) && Hex(m % 16) == Hex(n % 16)
    ensures m == n
  {
  }

  lemma EscapeIsInjective(c: char, d: char)
    requires Escape(c) == Escape(d)
    ensures c == d
  {
    if |Escape(c)| == 6 {
      assert Escape(c)[4] == Hex(c as int / 16) && Escape(c)[5] == Hex(c as int % 16);
      assert Escape(d)[4] == Hex(d as int / 16) && Escape(d)[5] == Hex(d as int % 16);
      HexIsInjective(c as int, d as int);
    } else if |Escape(c)| == 2 {
      assert Escape(c)[1] == Escape(d)[1];
    } else {
      assert Escape(c)[0] == Escape(d)[0];
    }
  }

  lemma EscapePrefix(c: char, d: char, x: string, y: string)
    requires Escape(c) + x == Escape(d) + y
    ensures c == d && x == y
  {
    EscapeLength(c, d, x, y);
    SplitAt(Escape(c), x, Escape(d), y);
    EscapeIsInjective(c, d);
  }

  lemma EscapedRest(s: string, x: string)
    requires s != ""
    ensures EscapeAll(s) + x == Escape(s[0]) + (EscapeAll(s[1..]) + x)
  {
  }

  /** A quoted text ends where its closing quote stands. */
  lemma {:induction false} QuotedBody(s: string, t: string, x: string, y: string)
    requires EscapeAll(s) + ("\"" + x) == EscapeAll(t) + ("\"" + y)
    ensures s == t && x == y
  {
    EscapedStart(s, x);
    EscapedStart(t, y);
    if s == "" {
      assert EscapeAll(s) + ("\"" + x) == "\"" + x && EscapeAll(t) + ("\"" + y) == "\"" + y;
      SplitAt("\"", x, "\"", y);
    } else {
      EscapedRest(s, "\"" + x);
      EscapedRest(t, "\"" + y);
      EscapePrefix(s[0], t[0], EscapeAll(s[1..]) + ("\"" + x), EscapeAll(t[1..]) + ("\"" + y));
      QuotedBody(s[1..], t[1..], x, y);
      assert s == [s[0]] + s[1..] && t == [t[0]] + t[1..];
    }
  }

  lemma EscapedStart(s: string, x: string)
    ensures (EscapeAll(s) + ("\"" + x))[0] == '"' <==> s == ""
  {
    if s != "" {
      assert (EscapeAll(s) + ("\"" + x))[0] == Escape(s[0])[0];
    }
  }

  lemma QuotedPrefix(s: string, t: string, x: string, y: string)
    requires Quote(s) + x == Quote(t) + y
    ensures s == t && x == y
  {
    assert Quote(s) + x == "\"" + (EscapeAll(s) + ("\"" + x));
    assert Quote(t) + y == "\"" + (EscapeAll(t) + ("\"" + y));
    SplitAt("\"", EscapeAll(s) + ("\"" + x), "\"", EscapeAll(t) + ("\"" + y));
    QuotedBody(s, t, x, y);
  }

  // ----- The printer -----

  ghost function Dumps(j: Json): string
    decreases j, 1
  {
    match j
    case JNull => "null"
    case JStr(s) => Quote(s)
    case JBool(b) => if b then "true" else "false"
    case JInt(n) => IntText(n)
    case JFloat(x) => x
    case JList(_) => "[" + ItemsFrom(j, 0)
    case JObject(fields) => "{" + FieldsFrom(j, SortedKeys(fields.Keys), 0)
  }

  function Comma(i: nat): string { if i == 0 then "" else "," }

  /** A list from item `i` on, with its closing bracket. */
  ghost function ItemsFrom(j: Json, i: nat): string
    requires j.JList? && i <= |j.items|
    decreases j, 0, |j.items| - i
  {
    if i == |j.items| then "]" else Comma(i) + (Dumps(j.items[i]) + ItemsFrom(j, i + 1))
  }

  /** An object from the key at `i` on, with its closing brace. */
  ghost function FieldsFrom(j: Json, keys: seq<string>, i: nat): string
    requires j.JObject? && i <= |keys| && forall k :: k in keys ==> k in j.fields
    decreases j, 0, |keys| - i
  {
    if i == |keys| then "}"
    else Comma(i) + (Quote(keys[i]) + (":" + (Dumps(j.fields[keys[i]]) + FieldsFrom(j, keys, i + 1))))
  }

  // ----- The text determines the value -----

  /** What can follow a value: nothing, or the punctuation of a list or an object. */
  predicate Follows(x: string) { x == "" || x[0] == ',' || x[0] == ']' || x[0] == '}' }

  datatype Kind = NullKind | BoolKind | NumberKind | StringKind | ListKind | ObjectKind | NoKind

  function KindOf(j: Json): Kind {
    match j
    case JNull => NullKind
    case JBool(_) => BoolKind
    case JInt(_) => NumberKind
    case JFloat(_) => NumberKind
    case JStr(_) => StringKind
    case JList(_) => ListKind
    case JObject(_) => ObjectKind
  }

  function KindOfChar(c: char): Kind {
    if c == 'n' then NullKind
    else if c == 't' || c == 'f' then BoolKind
    else if IsDigit(c) || c == '-' then NumberKind
    else if c == '"' then StringKind
    else if c == '[' then ListKind
    else if c == '{' then ObjectKind
    else NoKind
  }

  lemma FirstChar(j: Json)
    ensures Dumps(j) != "" && KindOfChar(Dumps(j)[0]) == KindOf(j)
  {
  }

  lemma SameKind(a: Json, b: Json, x: string, y: string)
    requires Dumps(a) + x == Dumps(b) + y
    ensures KindOf(a) == KindOf(b)
  {
    FirstChar(a);
    FirstChar(b);
    assert (Dumps(a) + x)[0] == Dumps(a)[0] && (Dumps(b) + y)[0] == Dumps(b)[0];
  }

  predicate AllNumberChars(s: string) { forall i :: 0 <= i < |s| ==> IsNumberChar(s[i]) }

  function NumberLength(s: string): nat {
    if s == "" || !IsNumberChar(s[0]) then 0 else 1 + NumberLength(s[1..])
  }

  lemma {:induction false} NumberEnds(a: string, x: string)
    requires AllNumberChars(a) && Follows(x)
    ensures NumberLength(a + x) == |a|
  {
    if a == "" {
      assert a + x == x;
    } else {
      assert (a + x)[1..] == a[1..] + x;
      NumberEnds(a[1..], x);
    }
  }

  function NumberText(j: Json): string
    requires j.JInt? || j.JFloat?
  {
    if j.JInt? then IntText(j.n) else j.x
  }

  lemma NumberTextIsInjective(a: Json, b: Json)
    requires (a.JInt? || a.JFloat?) && (b.JInt? || b.JFloat?) && NumberText(a) == NumberText(b)
    ensures a == b
  {
    assert a.JFloat? <==> '.' in NumberText(a) || 'e' in NumberText(a);
    assert b.JFloat? <==> '.' in NumberText(b) || 'e' in NumberText(b);
    if a.JInt? {
      IntTextIsInjective(a.n, b.n);
    }
  }

  lemma NumberPrefix(a: Json, b: Json, x: string, y: string)
    requires (a.JInt? || a.JFloat?) && (b.JInt? || b.JFloat?)
    requires NumberText(a) + x == NumberText(b) + y && Follows(x) && Follows(y)
    ensures a == b && x == y
  {
    NumberEnds(NumberText(a), x);
    NumberEnds(NumberText(b), y);
    SplitAt(NumberText(a), x, NumberText(b), y);
    NumberTextIsInjective(a, b);
  }

  lemma WordPrefix(a: Json, b: Json, x: string, y: string)
    requires (a.JNull? && b.JNull?) || (a.JBool? && b.JBool?)
    requires Dumps(a) + x == Dumps(b) + y
    ensures a == b && x == y
  {
    assert (Dumps(a) + x)[0] == Dumps(a)[0] && (Dumps(b) + y)[0] == Dumps(b)[0];
    SplitAt(Dumps(a), x, Dumps(b), y);
  }

  /** A printed value ends where something that can follow it begins: no value is the start of another. */
  lemma {:induction false} DumpsPrefix(a: Json, b: Json, x: string, y: string)
    requires Dumps(a) + x == Dumps(b) + y && Follows(x) && Follows(y)
    ensures a == b && x == y
    decreases a, 1
  {
    SameKind(a, b, x, y);
    match KindOf(a)
    case NumberKind => NumberPrefix(a, b, x, y);
    case StringKind => QuotedPrefix(a.text, b.text, x, y);
    case ListKind => ListPrefix(a, b, x, y);
    case ObjectKind => ObjectPrefix(a, b, x, y);
    case _ => WordPrefix(a, b, x, y);
  }

  lemma Regroup(a: string, b: string, c: string)
    ensures a + b + c == a + (b + c)
  {
  }

  lemma {:induction false} ListPrefix(a: Json, b: Json, x: string, y: string)
    requires a.JList? && b.JList? && Dumps(a) + x == Dumps(b) + y
    ensures a == b && x == y
    decreases a, 0, |a.items| + 1
  {
    var aItems, bItems := ItemsFrom(a, 0), ItemsFrom(b, 0);
    Regroup("[", aItems, x);
    Regroup("[", bItems, y);
    SplitAt("[", aItems + x, "[", bItems + y);
    ItemsPrefix(a, b, 0, x, y);
    assert a.items[0..] == a.items && b.items[0..] == b.items;
  }

  lemma {:induction false} ObjectPrefix(a: Json, b: Json, x: string, y: string)
    requires a.JObject? && b.JObject? && Dumps(a) + x == Dumps(b) + y
    ensures a == b && x == y
    decreases a, 0, |SortedKeys(a.fields.Keys)| + 1
  {
    var ks, ls := SortedKeys(a.fields.Keys), SortedKeys(b.fields.Keys);
    var aFields, bFields := FieldsFrom(a, ks, 0), FieldsFrom(b, ls, 0);
    Regroup("{", aFields, x);
    Regroup("{", bFields, y);
    SplitAt("{", aFields + x, "{", bFields + y);
    FieldsPrefix(a, b, ks, ls, 0, x, y);
    assert ks[0..] == ks && ls[0..] == ls;
    SameObjects(a, b, ks);
  }

  lemma SameObjects(a: Json, b: Json, keys: seq<string>)
    requires a.JObject? && b.JObject? && (forall k :: k in keys <==> k in a.fields)
             && (forall k :: k in keys <==> k in b.fields)
    requires forall i :: 0 <= i < |keys| ==> a.fields[keys[i]] == b.fields[keys[i]]
    ensures a == b
  {
    assert a.fields == b.fields;
  }

  lemma ItemText(j: Json, i: nat, x: string)
    requires j.JList? && i < |j.items|
    ensures ItemsFrom(j, i) + x == Comma(i) + (Dumps(j.items[i]) + (ItemsFrom(j, i + 1) + x))
  {
    var item, rest := Dumps(j.items[i]), ItemsFrom(j, i + 1);
    Regroup(Comma(i), item + rest, x);
    Regroup(item, rest, x);
  }

  /** The items from `i` on, and where the list ends. */
  lemma {:induction false} ItemsPrefix(a: Json, b: Json, i: nat, x: string, y: string)
    requires a.JList? && b.JList? && i <= |a.items| && i <= |b.items|
    requires ItemsFrom(a, i) + x == ItemsFrom(b, i) + y
    ensures a.items[i..] == b.items[i..] && x == y
    decreases a, 0, |a.items| - i
  {
    ItemsStart(a, i, x);
    ItemsStart(b, i, y);
    if i == |a.items| {
      SplitAt("]", x, "]", y);
    } else {
      ItemPrefix(a, b, i, x, y);
      DumpsPrefix(a.items[i], b.items[i], ItemsFrom(a, i + 1) + x, ItemsFrom(b, i + 1) + y);
      ItemsPrefix(a, b, i + 1, x, y);
      assert a.items[i..] == [a.items[i]] + a.items[i + 1..] && b.items[i..] == [b.items[i]] + b.items[i + 1..];
    }
  }

  lemma ItemPrefix(a: Json, b: Json, i: nat, x: string, y: string)
    requires a.JList? && b.JList? && i < |a.items| && i < |b.items|
    requires ItemsFrom(a, i) + x == ItemsFrom(b, i) + y
    ensures Dumps(a.items[i]) + (ItemsFrom(a, i + 1) + x) == Dumps(b.items[i]) + (ItemsFrom(b, i + 1) + y)
    ensures Follows(ItemsFrom(a, i + 1) + x) && Follows(ItemsFrom(b, i + 1) + y)
  {
    var aRest, bRest := ItemsFrom(a, i + 1) + x, ItemsFrom(b, i + 1) + y;
    ItemText(a, i, x);
    ItemText(b, i, y);
    SplitAt(Comma(i), Dumps(a.items[i]) + aRest, Comma(i), Dumps(b.items[i]) + bRest);
    ItemsFollow(a, i + 1, x);
    ItemsFollow(b, i + 1, y);
  }

  lemma ItemsStart(j: Json, i: nat, x: string)
    requires j.JList? && i <= |j.items|
    ensures ItemsFrom(j, i) != "" && ((ItemsFrom(j, i) + x)[0] == ']' <==> i == |j.items|)
  {
    if i < |j.items| {
      FirstChar(j.items[i]);
      assert i == 0 ==> ItemsFrom(j, i)[0] == Dumps(j.items[i])[0];
    }
  }

  lemma ItemsFollow(j: Json, i: nat, x: string)
    requires j.JList? && 0 < i <= |j.items|
    ensures Follows(ItemsFrom(j, i) + x)
  {
  }

  /** The fields from the key at `i` on, and where the object ends. */
  lemma {:induction false} FieldsPrefix(a: Json, b: Json, ks: seq<string>, ls: seq<string>, i: nat, x: string,
        y: string)
    requires a.JObject? && b.JObject? && i <= |ks| && i <= |ls|
    requires (forall k :: k in ks ==> k in a.fields) && (forall k :: k in ls ==> k in b.fields)
    requires FieldsFrom(a, ks, i) + x == FieldsFrom(b, ls, i) + y
    ensures ks[i..] == ls[i..] && x == y && forall n :: i <= n < |ks| ==>
            ks[n] in b.fields && a.fields[ks[n]] == b.fields[ks[n]]
    decreases a, 0, |ks| - i
  {
    FieldsStart(a, ks, i, x);
    FieldsStart(b, ls, i, y);
    if i == |ks| {
      SplitAt("}", x, "}", y);
    } else {
      FieldPrefix(a, b, ks, ls, i, x, y);
      DumpsPrefix(a.fields[ks[i]], b.fields[ls[i]], FieldsFrom(a, ks, i + 1) + x, FieldsFrom(b, ls, i + 1) + y);
      FieldsPrefix(a, b, ks, ls, i + 1, x, y);
      assert ks[i..] == [ks[i]] + ks[i + 1..] && ls[i..] == [ls[i]] + ls[i + 1..];
    }
  }

  lemma FieldsStart(j: Json, keys: seq<string>, i: nat, x: string)
    requires j.JObject? && i <= |keys| && forall k :: k in keys ==> k in j.fields
    ensures FieldsFrom(j, keys, i) != "" && ((FieldsFrom(j, keys, i) + x)[0] == '}' <==> i == |keys|)
  {
    if i < |keys| {
      assert i == 0 ==> FieldsFrom(j, keys, i)[0] == Quote(keys[i])[0];
    }
  }

  lemma FieldsFollow(j: Json, keys: seq<string>, i: nat, x: string)
    requires j.JObject? && 0 < i <= |keys| && forall k :: k in keys ==> k in j.fields
    ensures Follows(FieldsFrom(j, keys, i) + x)
  {
  }

  lemma RegroupField(comma: string, key: string, value: string, rest: string, x: string)
    ensures comma + (key + (":" + (value + rest))) + x == comma + (key + (":" + (value + (rest + x))))
  {
    Regroup(comma, key + (":" + (value + rest)), x);
    Regroup(key, ":" + (value + rest), x);
    Regroup(":", value + rest, x);
    Regroup(value, rest, x);
  }

  lemma FieldText(j: Json, keys: seq<string>, i: nat, x: string)
    requires j.JObject? && i < |keys| && forall k :: k in keys ==> k in j.fields
    ensures FieldsFrom(j, keys, i) + x
         == Comma(i) + (Quote(keys[i]) + (":" + (Dumps(j.fields[keys[i]]) + (FieldsFrom(j, keys, i + 1) + x))))
  {
    RegroupField(Comma(i), Quote(keys[i]), Dumps(j.fields[keys[i]]), FieldsFrom(j, keys, i + 1), x);
  }

  /** One key and its colon. */
  lemma FieldPrefix(a: Json, b: Json, ks: seq<string>, ls: seq<string>, i: nat, x: string, y: string)
    requires a.JObject? && b.JObject? && i < |ks| && i < |ls|
    requires (forall k :: k in ks ==> k in a.fields) && (forall k :: k in ls ==> k in b.fields)
    requires FieldsFrom(a, ks, i) + x == FieldsFrom(b, ls, i) + y
    ensures ks[i] == ls[i]
    ensures Dumps(a.fields[ks[i]]) + (FieldsFrom(a, ks, i + 1) + x) == Dumps(b.fields[ls[i]])
            + (FieldsFrom(b, ls, i + 1) + y)
    ensures Follows(FieldsFrom(a, ks, i + 1) + x) && Follows(FieldsFrom(b, ls, i + 1) + y)
  {
    var aValue := Dumps(a.fields[ks[i]]) + (FieldsFrom(a, ks, i + 1) + x);
    var bValue := Dumps(b.fields[ls[i]]) + (FieldsFrom(b, ls, i + 1) + y);
    FieldText(a, ks, i, x);
    FieldText(b, ls, i, y);
    SplitAt(Comma(i), Quote(ks[i]) + (":" + aValue), Comma(i), Quote(ls[i]) + (":" + bValue));
    QuotedPrefix(ks[i], ls[i], ":" + aValue, ":" + bValue);
    SplitAt(":", aValue, ":", bValue);
    FieldsFollow(a, ks, i + 1, x);
    FieldsFollow(b, ls, i + 1, y);
  }

  /** Different values are printed differently. */
  lemma DumpsIsInjective(a: Json, b: Json)
    requires Dumps(a) == Dumps(b)
    ensures a == b
  {
    assert Dumps(a) + "" == Dumps(b) + "";
    DumpsPrefix(a, b, "", "");
  }
}
