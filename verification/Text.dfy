/** Blank handling on ASCII text. */
module Text {

  predicate IsSpace(c: char) {
    c == ' ' || '\t' <= c <= '\r'
  }

  predicate Blank(s: string) {
    forall i | 0 <= i < |s| :: IsSpace(s[i])
  }

  function TrimLeft(s: string, drop: char -> bool): string {
    if s != "" && drop(s[0]) then TrimLeft(s[1..], drop) else s
  }

  function TrimRight(s: string, drop: char -> bool): string {
    if s != "" && drop(s[|s| - 1]) then TrimRight(s[..|s| - 1], drop) else s
  }

  function TrimSpace(s: string): string {
    TrimRight(TrimLeft(s, IsSpace), IsSpace)
  }

  /** Neither the first nor the last character is blank. */
  predicate Tight(s: string) {
    s != "" ==> !IsSpace(s[0]) && !IsSpace(s[|s| - 1])
  }

  lemma {:induction false} TrimLeftFixed(s: string)
    ensures |TrimLeft(s, IsSpace)| <= |s| && (|TrimLeft(s, IsSpace)| == |s| ==> TrimLeft(s, IsSpace) == s)
    ensures TrimLeft(s, IsSpace) == s <==> s == "" || !IsSpace(s[0])
  {
    if s != "" && IsSpace(s[0]) {
      TrimLeftFixed(s[1..]);
    }
  }

  lemma {:induction false} TrimRightFixed(s: string)
    ensures |TrimRight(s, IsSpace)| <= |s| && (|TrimRight(s, IsSpace)| == |s| ==> TrimRight(s, IsSpace) == s)
    ensures TrimRight(s, IsSpace) == s <==> s == "" || !IsSpace(s[|s| - 1])
  {
    if s != "" && IsSpace(s[|s| - 1]) {
      TrimRightFixed(s[..|s| - 1]);
    }
  }

  lemma TrimFixed(s: string)
    ensures TrimSpace(s) == s <==> Tight(s)
  {
    TrimLeftFixed(s);
    TrimRightFixed(s);
    TrimRightFixed(TrimLeft(s, IsSpace));
  }

  lemma {:induction false} TrimLeftCuts(s: string, drop: char -> bool)
    ensures var t := TrimLeft(s, drop);
      && |t| <= |s| && s[|s| - |t|..] == t
      && (forall i | 0 <= i < |s| - |t| :: drop(s[i]))
      && (t != "" ==> !drop(t[0]))
  {
    if s != "" && drop(s[0]) {
      TrimLeftCuts(s[1..], drop);
      assert forall i | 0 < i < |s| :: s[i] == s[1..][i - 1];
    }
  }

  lemma {:induction false} TrimRightCuts(s: string)
    ensures var t := TrimRight(s, IsSpace);
      && |t| <= |s| && s[..|t|] == t && Blank(s[|t|..])
      && (t != "" ==> !IsSpace(t[|t| - 1]))
  {
    var n, t := |s| - 1, TrimRight(s, IsSpace);
    if s != "" && IsSpace(s[n]) {
      TrimRightCuts(s[..n]);
      assert forall i | 0 <= i < n - |t| :: s[|t|..][i] == s[..n][|t|..][i];
    }
  }

  /** What is trimmed off is blank, on both sides, and nothing more can be. */
  lemma TrimSpaceCuts(s: string) returns (left: string, right: string)
    ensures s == left + TrimSpace(s) + right && Blank(left) && Blank(right) && Tight(TrimSpace(s))
  {
    var t := TrimLeft(s, IsSpace);
    TrimLeftCuts(s, IsSpace);
    TrimRightCuts(t);
    var u := TrimRight(t, IsSpace);
    left, right := s[..|s| - |t|], t[|u|..];
    assert s == left + t && t == u + right;
  }
}
