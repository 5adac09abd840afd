/** The functions of Go's strings package that the pipelines rely on. */
module Text {
  predicate HasAt(s: string, sub: string, i: int) {
    0 <= i && i + |sub| <= |s| && s[i..i + |sub|] == sub
  }

  ghost predicate Contains(s: string, sub: string) {
    exists i :: HasAt(s, sub, i)
  }

  // strings.Index from position i on: the first occurrence, or -1.
  function IndexFrom(s: string, sub: string, i: nat): (r: int)
    requires i <= |s|
    ensures r == -1 ==> forall j :: i <= j ==> !HasAt(s, sub, j)
    ensures r != -1 ==> i <= r && HasAt(s, sub, r) && forall j :: i <= j < r ==> !HasAt(s, sub, j)
    decreases |s| - i
  {
    if HasAt(s, sub, i) then i
    else if i == |s| then -1
    else IndexFrom(s, sub, i + 1)
  }

  // strings.Replace(s, sub, "", 1)
  function RemoveFirst(s: string, sub: string): string {
    var i := IndexFrom(s, sub, 0);
    if i == -1 then s else s[..i] + s[i + |sub|..]
  }

  predicate HasPrefix(s: string, p: string) { |p| <= |s| && s[..|p|] == p }

  // The text on both sides of the last separator c determines the whole.
  lemma LastSplitUnique(a: string, b: string, a': string, b': string, c: char)
    requires a + [c] + b == a' + [c] + b'
    requires c !in b && c !in b'
    ensures a == a' && b == b'
  {
    var s := a + [c] + b;
    assert s[|a|] == c && s[|a'|] == c;
    assert forall i :: |a| < i < |s| ==> s[i] in b;
    assert forall i :: |a'| < i < |s| ==> s[i] in b';
    assert s[|a| + 1..] == b && s[|a'| + 1..] == b';
    assert a == s[..|a|] && a' == s[..|a'|];
  }
}
