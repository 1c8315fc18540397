/** PostgreSQL dollar-quote delimiters, as the migration-script splitter matches them. */
module DollarTags {

  predicate IsIdentStart(c: char) {
    'A' <= c <= 'Z' || 'a' <= c <= 'z' || c == '_'
  }

  predicate IsIdentPart(c: char) {
    IsIdentStart(c) || '0' <= c <= '9'
  }

  /** A dollar-quote delimiter: `$$`, or `$` identifier `$`. */
  predicate IsTag(t: string) {
    && |t| >= 2 && t[0] == '$' && t[|t| - 1] == '$'
    && (|t| > 2 ==> IsIdentStart(t[1]))
    && forall i :: 1 <= i < |t| - 1 ==> IsIdentPart(t[i])
  }

  /** The end of the run of identifier characters that starts at `from`. */
  function IdentEnd(s: string, from: nat): (k: nat)
    requires from <= |s|
    ensures from <= k <= |s|
    decreases |s| - from
  {
    if from < |s| && IsIdentPart(s[from]) then IdentEnd(s, from + 1) else from
  }

  lemma IdentEndIsMaximal(s: string, from: nat)
    requires from <= |s|
    ensures forall i :: from <= i < IdentEnd(s, from) ==> IsIdentPart(s[i])
    ensures IdentEnd(s, from) < |s| ==> !IsIdentPart(s[IdentEnd(s, from)])
    decreases |s| - from
  {
  }

  /** The length of the dollar tag at the front of `s`, and 0 if there is none. */
  function TagLength(s: string): (n: nat)
    ensures n <= |s|
  {
    if |s| < 2 || s[0] != '$' then 0
    else if s[1] == '$' then 2
    else if !IsIdentStart(s[1]) then 0
    else
      var k := IdentEnd(s, 2);
      if k < |s| && s[k] == '$' then k + 1 else 0
  }

  /** `TagLength` finds a tag exactly when some prefix is one. */
  lemma TagLengthFindsTag(s: string)
    ensures TagLength(s) > 0 ==> IsTag(s[..TagLength(s)])
    ensures TagLength(s) == 0 ==> forall k :: 0 <= k <= |s| ==> !IsTag(s[..k])
  {
    if |s| >= 2 {
      IdentEndIsMaximal(s, 2);
      if TagLength(s) == 0 {
        forall k | 0 <= k <= |s|
          ensures !IsTag(s[..k])
        {
          var t, e := s[..k], IdentEnd(s, 2);
          assert k >= 2 ==> t[1] == s[1] && t[k - 1] == s[k - 1];
          assert 2 <= e < k ==> t[e] == s[e];
        }
      }
    }
  }

  /** No tag is a proper prefix of another. */
  lemma TagsArePrefixFree(s: string, j: nat, k: nat)
    requires j <= |s| && k <= |s| && IsTag(s[..j]) && IsTag(s[..k])
    ensures j == k
  {
    assert s[j - 1] == s[..j][j - 1] == '$' && s[k - 1] == s[..k][k - 1] == '$';
    assert forall i :: 1 <= i < j - 1 ==> s[..j][i] == s[i] && s[i] != '$';
    assert forall i :: 1 <= i < k - 1 ==> s[..k][i] == s[i] && s[i] != '$';
  }
}
