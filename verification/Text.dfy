// The string operations the gateway uses, on ASCII text: strip, upper and
// lower case, alphanumeric filtering and substring search.
module Text {

  predicate IsSpace(c: char) {
    c == ' ' || '\t' <= c <= '\r' || '\U{1C}' <= c <= '\U{1F}'
  }

  predicate IsAlnum(c: char) {
    'a' <= c <= 'z' || 'A' <= c <= 'Z' || '0' <= c <= '9'
  }

  function UpperChar(c: char): char {
    if 'a' <= c <= 'z' then ((c as int) - 32) as char else c
  }

  function LowerChar(c: char): char {
    if 'A' <= c <= 'Z' then ((c as int) + 32) as char else c
  }

  function Upper(s: string): string {
    seq(|s|, i requires 0 <= i < |s| => UpperChar(s[i]))
  }

  function Lower(s: string): string {
    seq(|s|, i requires 0 <= i < |s| => LowerChar(s[i]))
  }

  function StripLeft(s: string): string {
    if |s| > 0 && IsSpace(s[0]) then StripLeft(s[1..]) else s
  }

  function StripRight(s: string): string {
    if |s| > 0 && IsSpace(s[|s| - 1]) then StripRight(s[..|s| - 1]) else s
  }

  function Strip(s: string): string {
    StripRight(StripLeft(s))
  }

  predicate Contains(s: string, part: string) {
    exists i | 0 <= i <= |s| :: StartsWith(s[i..], part)
  }

  predicate StartsWith(s: string, prefix: string) {
    |prefix| <= |s| && s[..|prefix|] == prefix
  }

  predicate EndsWith(s: string, suffix: string) {
    |suffix| <= |s| && s[|s| - |suffix|..] == suffix
  }

  // The names of an order that only moves stops.
  predicate IsSltpName(s: string) {
    s == "sltp" || s == "modify_sltp"
  }

  // No white space at either end.
  predicate Trimmed(s: string) {
    |s| > 0 ==> !IsSpace(s[0]) && !IsSpace(s[|s| - 1])
  }

  lemma {:induction false} StripLeftLeads(s: string)
    ensures |StripLeft(s)| > 0 ==> !IsSpace(StripLeft(s)[0])
  {
    if |s| > 0 && IsSpace(s[0]) {
      StripLeftLeads(s[1..]);
    }
  }

  lemma {:induction false} StripRightTrims(s: string)
    requires |s| > 0 ==> !IsSpace(s[0])
    ensures Trimmed(StripRight(s))
  {
    if |s| > 0 && IsSpace(s[|s| - 1]) {
      StripRightTrims(s[..|s| - 1]);
    }
  }

  lemma StripTrims(s: string)
    ensures Trimmed(Strip(s))
    ensures Strip(Strip(s)) == Strip(s)
  {
    StripLeftLeads(s);
    StripRightTrims(StripLeft(s));
  }

  lemma {:induction false} StripLeftUpper(s: string)
    ensures StripLeft(Upper(s)) == Upper(StripLeft(s))
  {
    if |s| > 0 && IsSpace(s[0]) {
      assert Upper(s)[1..] == Upper(s[1..]);
      StripLeftUpper(s[1..]);
    }
  }

  lemma {:induction false} StripRightUpper(s: string)
    ensures StripRight(Upper(s)) == Upper(StripRight(s))
  {
    if |s| > 0 && IsSpace(s[|s| - 1]) {
      assert Upper(s)[..|s| - 1] == Upper(s[..|s| - 1]);
      StripRightUpper(s[..|s| - 1]);
    }
  }

  // Case folding and stripping commute.
  lemma StripUpper(s: string)
    ensures Strip(Upper(s)) == Upper(Strip(s))
    ensures Upper(Upper(s)) == Upper(s)
  {
    StripLeftUpper(s);
    StripRightUpper(StripLeft(s));
  }

  lemma EmptyContainsNothing(part: string)
    requires part != ""
    ensures !Contains("", part)
  {
  }

  lemma BlankUpper(s: string)
    ensures Upper(s) == "" <==> s == ""
  {
  }

  predicate AllSpace(s: string) {
    forall i :: 0 <= i < |s| ==> IsSpace(s[i])
  }

  lemma {:induction false} StripLeftDropsSpace(s: string) returns (left: string)
    ensures s == left + StripLeft(s) && AllSpace(left)
  {
    left := [];
    if |s| > 0 && IsSpace(s[0]) {
      var more := StripLeftDropsSpace(s[1..]);
      left := [s[0]] + more;
      assert s == [s[0]] + s[1..];
    }
  }

  lemma {:induction false} StripRightDropsSpace(s: string) returns (right: string)
    ensures s == StripRight(s) + right && AllSpace(right)
  {
    right := [];
    if |s| > 0 && IsSpace(s[|s| - 1]) {
      var more := StripRightDropsSpace(s[..|s| - 1]);
      right := more + [s[|s| - 1]];
      assert s == s[..|s| - 1] + [s[|s| - 1]];
    }
  }

  // Stripping takes off white space at both ends and nothing else.
  lemma StripMeans(s: string) returns (left: string, right: string)
    ensures s == left + Strip(s) + right && AllSpace(left) && AllSpace(right) && Trimmed(Strip(s))
  {
    StripTrims(s);
    left := StripLeftDropsSpace(s);
    right := StripRightDropsSpace(StripLeft(s));
  }

  // Case changes letter by letter, and changes nothing else.
  lemma CaseMeans(s: string, i: nat)
    requires i < |s|
    ensures var small, large := "abcdefghijklmnopqrstuvwxyz", "ABCDEFGHIJKLMNOPQRSTUVWXYZ";
            && (forall k :: 0 <= k < 26 && s[i] == small[k] ==> Upper(s)[i] == large[k] && Lower(s)[i] == small[k])
            && (forall k :: 0 <= k < 26 && s[i] == large[k] ==> Lower(s)[i] == small[k] && Upper(s)[i] == large[k])
            && (s[i] !in small && s[i] !in large ==> Upper(s)[i] == s[i] && Lower(s)[i] == s[i])
  {
    var small, large := "abcdefghijklmnopqrstuvwxyz", "ABCDEFGHIJKLMNOPQRSTUVWXYZ";
    assert forall k :: 0 <= k < 26 ==> small[k] as int == 97 + k && large[k] as int == 65 + k;
    if 'a' <= s[i] <= 'z' {
      assert small[s[i] as int - 97] == s[i];
    } else if 'A' <= s[i] <= 'Z' {
      assert large[s[i] as int - 65] == s[i];
    }
  }

  lemma AlreadyTrimmed(s: string)
    requires Trimmed(s)
    ensures Strip(s) == s
  {
  }

  // Folding and stripping twice is the same as once.
  lemma NormalizedTwice(s: string)
    ensures Lower(Strip(Lower(Strip(s)))) == Lower(Strip(s))
  {
    StripTrims(s);
    assert Trimmed(Lower(Strip(s)));
    assert Lower(Lower(Strip(s))) == Lower(Strip(s));
  }

  // A trimmed lower-case string is already normalized.
  lemma AlreadyNormalized(s: string)
    requires Trimmed(s) && forall i :: 0 <= i < |s| ==> !('A' <= s[i] <= 'Z')
    ensures Strip(s) == s && Lower(s) == s
  {
    StripTrims(s);
  }

  lemma AlreadyUpper(s: string)
    requires Trimmed(s) && forall i :: 0 <= i < |s| ==> !('a' <= s[i] <= 'z')
    ensures Strip(s) == s && Upper(s) == s
  {
    StripTrims(s);
  }
}
