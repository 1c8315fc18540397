/** Whitespace and `str.strip()`, as Python has them. */
module Text {

  /** The characters that Python's `str.strip()` removes. */
  predicate IsSpace(c: char) {
    var n := c as int;
    || 9 <= n <= 13 || 28 <= n <= 32 || n == 0x85 || n == 0xA0 || n == 0x1680
    || 0x2000 <= n <= 0x200A || n == 0x2028 || n == 0x2029 || n == 0x202F || n == 0x205F || n == 0x3000
  }

  predicate AllSpace(s: string) {
    forall i :: 0 <= i < |s| ==> IsSpace(s[i])
  }

  function Strip(s: string): (r: string)
    ensures r != "" ==> !IsSpace(r[0]) && !IsSpace(r[|r| - 1])
  {
    if s == "" then ""
    else if IsSpace(s[0]) then Strip(s[1..])
    else if IsSpace(s[|s| - 1]) then Strip(s[..|s| - 1])
    else s
  }

  lemma LeadingSpace(c: char, rest: string, lead: string, t: string, trail: string)
    requires IsSpace(c) && AllSpace(lead) && rest == lead + t + trail
    ensures AllSpace([c] + lead) && [c] + rest == ([c] + lead) + t + trail
  {
  }

  lemma TrailingSpace(c: char, rest: string, lead: string, t: string, trail: string)
    requires IsSpace(c) && AllSpace(trail) && rest == lead + t + trail
    ensures AllSpace(trail + [c]) && rest + [c] == lead + t + (trail + [c])
  {
  }

  /** Stripping only takes whitespace away, and only from the two ends. */
  lemma {:induction false} StripSplits(s: string) returns (lead: string, trail: string)
    ensures AllSpace(lead) && AllSpace(trail) && s == lead + Strip(s) + trail
    decreases |s|
  {
    if s != "" && IsSpace(s[0]) {
      var inner;
      inner, trail := StripSplits(s[1..]);
      lead := [s[0]] + inner;
      assert s == [s[0]] + s[1..];
      LeadingSpace(s[0], s[1..], inner, Strip(s[1..]), trail);
    } else if s != "" && IsSpace(s[|s| - 1]) {
      var inner;
      lead, inner := StripSplits(s[..|s| - 1]);
      trail := inner + [s[|s| - 1]];
      assert s == s[..|s| - 1] + [s[|s| - 1]];
      TrailingSpace(s[|s| - 1], s[..|s| - 1], lead, Strip(s[..|s| - 1]), inner);
    } else {
      lead, trail := "", "";
      assert "" + Strip(s) + "" == Strip(s);
    }
  }

  /** A text that is already stripped is what stripping finds between any whitespace. */
  lemma {:induction false} StripInsideSpace(lead: string, t: string, trail: string)
    requires AllSpace(lead) && AllSpace(trail)
    requires Strip(t) == t
    ensures Strip(lead + t + trail) == t
    decreases |lead| + 2 * |trail|
  {
    var s := lead + t + trail;
    if lead != "" {
      assert s[0] == lead[0] && s[1..] == lead[1..] + t + trail;
      StripInsideSpace(lead[1..], t, trail);
    } else if trail == "" {
      assert s == t;
    } else if t == "" {
      assert s == trail + t + "";
      StripInsideSpace(trail, t, "");
    } else {
      var shorter := trail[..|trail| - 1];
      assert s[0] == t[0] && s[|s| - 1] == trail[|trail| - 1] && s[..|s| - 1] == lead + t + shorter;
      StripInsideSpace(lead, t, shorter);
    }
  }
}
