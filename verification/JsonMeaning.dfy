/**
 What a JSON text says, by the grammar of RFC 8259 and without the printer: how a reader takes strings,
 numbers, lists and objects apart. Every printed text says the value that was printed.
 */
module JsonMeaning {
  import opened JsonText
  import opened Outcomes

  // ----- Integers -----

  predicate AreDigits(s: string) { forall i :: 0 <= i < |s| ==> '0' <= s[i] <= '9' }

  function ValueOf(s: string): nat
    requires AreDigits(s)
  {
    if s == "" then 0 else 10 * ValueOf(s[..|s| - 1]) + (s[|s| - 1] as int - '0' as int)
  }

  /** Digits without a leading zero, and a sign in front of a negative number. */
  predicate SaysInt(s: string, n: int) {
    var digits := if n < 0 && s != "" then s[1..] else s;
    && s != "" && (n < 0 ==> s[0] == '-')
    && digits != "" && AreDigits(digits) && (|digits| > 1 ==> digits[0] != '0')
    && ValueOf(digits) == if n < 0 then -n else n
  }

  lemma {:induction false} DecimalSays(n: nat)
    ensures AreDigits(Decimal(n)) && ValueOf(Decimal(n)) == n && (n > 0 ==> Decimal(n)[0] != '0')
    ensures n < 10 <==> |Decimal(n)| == 1
  {
    if n < 10 {
      assert [Digit(n)][..0] == "";
    } else {
      DecimalSays(n / 10);
      assert Decimal(n)[..|Decimal(n)| - 1] == Decimal(n / 10);
    }
  }

  lemma IntTextSays(n: int)
    ensures SaysInt(IntText(n), n)
  {
    if n < 0 {
      DecimalSays(-n);
      assert IntText(n)[1..] == Decimal(-n);
    } else {
      DecimalSays(n);
    }
  }

  // ----- Strings -----

  function HexValue(c: char): Option<nat> {
    if '0' <= c <= '9' then Some(c as int - '0' as int)
    else if 'a' <= c <= 'f' then Some(c as int - 'a' as int + 10)
    else if 'A' <= c <= 'F' then Some(c as int - 'A' as int + 10)
    else None
  }

  /** The character that a one-letter escape stands for. */
  function Escaped(c: char): Option<char> {
    if c == '"' || c == '\\' || c == '/' then Some(c)
    else if c == 'b' then Some(8 as char)
    else if c == 'f' then Some(12 as char)
    else if c == 'n' then Some(10 as char)
    else if c == 'r' then Some(13 as char)
    else if c == 't' then Some(9 as char)
    else None
  }

  /** The first character that the inside of a string stands for, and how many characters say it. */
  function FirstOf(s: string): Option<(char, nat)>
    requires s != ""
  {
    if s[0] == '"' || s[0] as int < 32 then None
    else if s[0] != '\\' then Some((s[0], 1))
    else if |s| >= 2 && Escaped(s[1]).Some? then Some((Escaped(s[1]).value, 2))
    else if |s| >= 6 && s[1] == 'u' && s[2] == '0' && s[3] == '0' && HexValue(s[4]).Some? && HexValue(s[5]).Some? then
      Some(((16 * HexValue(s[4]).value + HexValue(s[5]).value) as char, 6))
    else None
  }

  /** What the inside of a string says. Escapes of characters above 255 are not needed here and not read. */
  function Unescape(s: string): Option<string>
    decreases |s|
  {
    if s == "" then Some("")
    else
      match FirstOf(s)
      case None => None
      case Some((c, n)) =>
        if n > |s| || n == 0 then None
        else match Unescape(s[n..])
          case None => None
          case Some(rest) => Some([c] + rest)
  }

  predicate SaysString(s: string, t: string) {
    |s| >= 2 && s[0] == '"' && s[|s| - 1] == '"' && Unescape(s[1..|s| - 1]) == Some(t)
  }

  lemma EscapeSays(c: char, rest: string)
    ensures FirstOf(Escape(c) + rest) == Some((c, |Escape(c)|))
  {
    var s := Escape(c) + rest;
    assert forall i :: 0 <= i < |Escape(c)| ==> s[i] == Escape(c)[i];
    if |Escape(c)| == 6 {
      HexSays(c as int / 16);
      HexSays(c as int % 16);
    }
  }

  lemma HexSays(d: nat)
    requires d < 16
    ensures HexValue(Hex(d)) == Some(d)
  {
  }

  lemma {:induction false} EscapedSays(t: string)
    ensures Unescape(EscapeAll(t)) == Some(t)
  {
    if t != "" {
      EscapedSays(t[1..]);
      EscapeSays(t[0], EscapeAll(t[1..]));
      assert (Escape(t[0]) + EscapeAll(t[1..]))[|Escape(t[0])|..] == EscapeAll(t[1..]);
      assert t == [t[0]] + t[1..];
    }
  }

  lemma QuoteSays(t: string)
    ensures SaysString(Quote(t), t)
  {
    EscapedSays(t);
    assert Quote(t)[1..|Quote(t)| - 1] == EscapeAll(t);
  }

  /** A text without quotes, backslashes and control characters is printed as it is. */
  lemma {:induction false} PlainTextStays(t: string)
    requires forall i :: 0 <= i < |t| ==> t[i] != '"' && t[i] != '\\' && t[i] as int >= 32
    ensures EscapeAll(t) == t
  {
    if t != "" {
      PlainTextStays(t[1..]);
      assert t == [t[0]] + t[1..];
    }
  }

  // ----- Lists and objects -----

  /** The parts, with commas between them. */
  function Listed(parts: seq<string>): string {
    if parts == [] then ""
    else if |parts| == 1 then parts[0]
    else parts[0] + ("," + Listed(parts[1..]))
  }

  ghost predicate Ascending(keys: seq<string>) {
    forall i, j :: 0 <= i < j < |keys| ==> Leq(keys[i], keys[j]) && keys[i] != keys[j]
  }

  ghost predicate SaysItems(parts: seq<string>, items: seq<Json>)
    decreases items, 0
  {
    |parts| == |items| && forall i :: 0 <= i < |items| ==> Says(parts[i], items[i])
  }

  /** One field: its key, a colon and its value. */
  ghost predicate SaysField(part: string, key: string, j: Json)
    requires j.JObject? && key in j.fields
    decreases j, 0
  {
    exists quoted, value :: SaysString(quoted, key) && Says(value, j.fields[key]) && part == quoted + (":" + value)
  }

  /** The fields, in ascending order of their keys, each once. */
  ghost predicate SaysFields(parts: seq<string>, keys: seq<string>, j: Json)
    requires j.JObject?
    decreases j, 1
  {
    && |parts| == |keys| && Ascending(keys) && (forall k :: k in keys <==> k in j.fields)
    && forall i :: 0 <= i < |keys| ==> SaysField(parts[i], keys[i], j)
  }

  /** The text says the value; the fields of objects are in order. */
  ghost predicate Says(s: string, j: Json)
    decreases j, 2
  {
    match j
    case JNull => s == "null"
    case JBool(b) => if b then s == "true" else s == "false"
    case JInt(n) => SaysInt(s, n)
    case JFloat(x) => s == x
    case JStr(t) => SaysString(s, t)
    case JList(items) => exists parts :: SaysItems(parts, items) && s == "[" + (Listed(parts) + "]")
    case JObject(_) => exists parts, keys :: SaysFields(parts, keys, j) && s == "{" + (Listed(parts) + "}")
  }

  // ----- The printer says what it was given -----

  /** What comes before part `i`. */
  function Gap(i: nat, n: nat): string { if 0 < i < n then "," else "" }

  lemma ListedStep(parts: seq<string>, i: nat)
    requires i < |parts|
    ensures Listed(parts[i..]) == parts[i] + (Gap(i + 1, |parts|) + Listed(parts[i + 1..]))
  {
    assert parts[i..][1..] == parts[i + 1..];
    assert parts[i] + "" == parts[i];
  }

  lemma {:induction false} ItemsListed(j: Json, parts: seq<string>, i: nat)
    requires j.JList? && |parts| == |j.items| && i <= |parts|
    requires forall k :: 0 <= k < |parts| ==> parts[k] == Dumps(j.items[k])
    ensures ItemsFrom(j, i) == Gap(i, |parts|) + (Listed(parts[i..]) + "]")
    decreases |parts| - i
  {
    if i < |parts| {
      ItemsListed(j, parts, i + 1);
      ListedStep(parts, i);
      RegroupListed(Comma(i), parts[i], Gap(i + 1, |parts|), Listed(parts[i + 1..]), "]");
    } else {
      assert parts[i..] == [];
    }
  }

  lemma RegroupListed(comma: string, part: string, gap: string, rest: string, close: string)
    ensures comma + (part + (gap + (rest + close))) == comma + ((part + (gap + rest)) + close)
  {
  }

  lemma RegroupField(comma: string, key: string, value: string, rest: string)
    ensures comma + (key + (":" + (value + rest))) == comma + ((key + (":" + value)) + rest)
  {
  }

  ghost function FieldText(j: Json, key: string): string
    requires j.JObject? && key in j.fields
  {
    Quote(key) + (":" + Dumps(j.fields[key]))
  }

  lemma {:induction false} FieldsListed(j: Json, keys: seq<string>, parts: seq<string>, i: nat)
    requires j.JObject? && |parts| == |keys| && i <= |keys| && forall k :: k in keys ==> k in j.fields
    requires forall k :: 0 <= k < |keys| ==> parts[k] == FieldText(j, keys[k])
    ensures FieldsFrom(j, keys, i) == Gap(i, |parts|) + (Listed(parts[i..]) + "}")
    decreases |keys| - i
  {
    if i < |keys| {
      var rest := FieldsFrom(j, keys, i + 1);
      FieldsListed(j, keys, parts, i + 1);
      ListedStep(parts, i);
      RegroupField(Comma(i), Quote(keys[i]), Dumps(j.fields[keys[i]]), rest);
      RegroupListed(Comma(i), parts[i], Gap(i + 1, |parts|), Listed(parts[i + 1..]), "}");
    } else {
      assert parts[i..] == [];
    }
  }

  lemma {:induction false} ListSays(j: Json)
    requires j.JList?
    ensures Says(Dumps(j), j)
    decreases j, 0
  {
    var parts := seq(|j.items|, i requires 0 <= i < |j.items| => Dumps(j.items[i]));
    forall i | 0 <= i < |j.items|
      ensures Says(parts[i], j.items[i])
    {
      DumpsSays(j.items[i]);
    }
    ItemsListed(j, parts, 0);
    assert parts[0..] == parts;
    assert SaysItems(parts, j.items) && Dumps(j) == "[" + (Listed(parts) + "]");
  }

  lemma {:induction false} FieldSays(j: Json, key: string)
    requires j.JObject? && key in j.fields
    ensures SaysField(FieldText(j, key), key, j)
    decreases j, 0
  {
    QuoteSays(key);
    DumpsSays(j.fields[key]);
  }

  lemma KeysAreAscending(keys: set<string>)
    ensures Ascending(SortedKeys(keys))
  {
    var sorted := SortedKeys(keys);
    forall i, j | 0 <= i < j < |sorted|
      ensures Leq(sorted[i], sorted[j]) && sorted[i] != sorted[j]
    {
      KeysAscend(keys, i, j);
    }
  }

  lemma {:induction false} FieldsSay(j: Json, keys: seq<string>, parts: seq<string>)
    requires j.JObject? && Ascending(keys) && |parts| == |keys| && forall k :: k in keys <==> k in j.fields
    requires forall i :: 0 <= i < |keys| ==> parts[i] == FieldText(j, keys[i])
    ensures SaysFields(parts, keys, j)
    decreases j, 1
  {
    forall i | 0 <= i < |keys|
      ensures SaysField(parts[i], keys[i], j)
    {
      FieldSays(j, keys[i]);
    }
  }

  lemma AllFieldsListed(j: Json, keys: seq<string>, parts: seq<string>)
    requires j.JObject? && |parts| == |keys| && forall k :: k in keys ==> k in j.fields
    requires forall i :: 0 <= i < |keys| ==> parts[i] == FieldText(j, keys[i])
    ensures FieldsFrom(j, keys, 0) == Listed(parts) + "}"
  {
    FieldsListed(j, keys, parts, 0);
    assert parts[0..] == parts;
    assert "" + (Listed(parts) + "}") == Listed(parts) + "}";
  }

  lemma ObjectText(j: Json, keys: seq<string>)
    requires j.JObject? && keys == SortedKeys(j.fields.Keys)
    ensures Dumps(j) == "{" + FieldsFrom(j, keys, 0)
  {
  }

  lemma SaysObject(s: string, j: Json, keys: seq<string>, parts: seq<string>)
    requires j.JObject? && SaysFields(parts, keys, j) && s == "{" + (Listed(parts) + "}")
    ensures Says(s, j)
  {
  }

  lemma {:induction false} ObjectSays(j: Json)
    requires j.JObject?
    ensures Says(Dumps(j), j)
    decreases j, 2
  {
    var keys := SortedKeys(j.fields.Keys);
    var parts := seq(|keys|, i requires 0 <= i < |keys| => FieldText(j, keys[i]));
    KeysAreAscending(j.fields.Keys);
    FieldsSay(j, keys, parts);
    AllFieldsListed(j, keys, parts);
    ObjectText(j, keys);
    SaysObject(Dumps(j), j, keys, parts);
  }

  /** Read by the grammar, the printed text says the value that was printed. */
  lemma {:induction false} DumpsSays(j: Json)
    ensures Says(Dumps(j), j)
    decreases j, 3
  {
    match j
    case JInt(n) => IntTextSays(n);
    case JStr(t) => QuoteSays(t);
    case JList(_) => ListSays(j);
    case JObject(_) => ObjectSays(j);
    case _ =>
  }
}
