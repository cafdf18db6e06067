/** Reading the free-text reply of a selector that runs on an engine: a request to
    stop, or the name of the next member. Text is ASCII. */
module SelectorReplies {
  import opened Messages
  import opened Text

  const TERMINATE := "TERMINATE"
  const TERMINATE_FALLBACK := "TERMINATE_TEAM"

  function LowerChar(c: char): char {
    if 'A' <= c <= 'Z' then c - 'A' + 'a' else c
  }

  function Lower(s: string): (t: string)
    ensures |t| == |s| && forall i | 0 <= i < |s| :: t[i] == LowerChar(s[i])
  {
    seq(|s|, i requires 0 <= i < |s| => LowerChar(s[i]))
  }

  predicate EqualFold(a: string, b: string) {
    Lower(a) == Lower(b)
  }

  predicate IsSeparator(c: char) {
    c == ':' || c == ' ' || c == '\t' || c == '\n' || c == '\r'
  }

  predicate IsNameChar(c: char) {
    'a' <= c <= 'z' || 'A' <= c <= 'Z' || '0' <= c <= '9' || c == '-'
  }

  predicate OccursAt(h: string, n: string, i: int) {
    0 <= i <= |h| - |n| && h[i..i + |n|] == n
  }

  predicate Contains(h: string, n: string) {
    exists i | 0 <= i <= |h| :: OccursAt(h, n, i)
  }

  /** An occurrence that neither continues a name nor is continued by one. */
  predicate WholeAt(h: string, n: string, i: int) {
    && OccursAt(h, n, i)
    && (i == 0 || !IsNameChar(h[i - 1]))
    && (i + |n| == |h| || !IsNameChar(h[i + |n|]))
  }

  predicate ContainsWhole(h: string, n: string) {
    n != "" && exists i | 0 <= i <= |h| :: WholeAt(h, n, i)
  }

  /** The first occurrence at or after `from`. */
  method Index(h: string, n: string, from: nat) returns (at: Option<nat>)
    requires from <= |h|
    ensures at.Some? ==> from <= at.value && OccursAt(h, n, at.value)
    ensures forall i | from <= i < (if at.Some? then at.value else |h| + 1) :: !OccursAt(h, n, i)
  {
    for i := from to |h| + 1
      invariant forall k | from <= k < i :: !OccursAt(h, n, k)
    {
      if i + |n| <= |h| && h[i..i + |n|] == n {
        return Some(i);
      }
    }
    at := None;
  }

  method ContainsWholeName(haystack: string, needle: string) returns (found: bool)
    ensures found == ContainsWhole(haystack, needle)
  {
    if needle == "" {
      return false;
    }
    var offset := 0;
    while offset <= |haystack| - |needle|
      invariant 0 <= offset <= |haystack| + 1
      invariant forall i | 0 <= i < offset :: !WholeAt(haystack, needle, i)
    {
      var index := Index(haystack, needle, offset);
      if index.None? {
        return false;
      }
      var start := index.value;
      var end := start + |needle|;
      var startsClean := start == 0 || !IsNameChar(haystack[start - 1]);
      var endsClean := end == |haystack| || !IsNameChar(haystack[end]);
      if startsClean && endsClean {
        assert WholeAt(haystack, needle, start);
        return true;
      }
      offset := start + 1;
    }
    found := false;
  }

  function TerminateToken(candidates: seq<string>): string {
    if exists i | 0 <= i < |candidates| :: EqualFold(candidates[i], TERMINATE)
    then TERMINATE_FALLBACK else TERMINATE
  }

  method TerminateTokenFor(candidates: seq<string>) returns (token: string)
    ensures token == TerminateToken(candidates)
  {
    for i := 0 to |candidates|
      invariant forall k | 0 <= k < i :: !EqualFold(candidates[k], TERMINATE)
    {
      if EqualFold(candidates[i], TERMINATE) {
        return TERMINATE_FALLBACK;
      }
    }
    token := TERMINATE;
  }

  /** The closing response of a reply that asks to stop; None for any other reply. */
  function ParseTerminate(reply: string, token: string): Option<string> {
    var trimmed := TrimSpace(reply);
    if |trimmed| < |token| || !EqualFold(trimmed[..|token|], token) then None
    else
      var rest := trimmed[|token|..];
      if rest == "" then Some("")
      else if !IsSeparator(rest[0]) then None
      else Some(TrimSpace(TrimLeft(rest, IsSeparator)))
  }

  /** The candidates mentioned as whole names in the lower-cased reply, in order. */
  function Mentioned(lowered: string, candidates: seq<string>): seq<string> {
    if candidates == [] then []
    else (if ContainsWhole(lowered, Lower(candidates[0])) then [candidates[0]] else [])
         + Mentioned(lowered, candidates[1..])
  }

  /** Another mentioned name contains this one. */
  predicate Outdone(mentioned: seq<string>, name: string) {
    exists other | other in mentioned :: other != name && Contains(Lower(other), Lower(name))
  }

  function Longest(mentioned: seq<string>, among: seq<string>): seq<string> {
    if among == [] then []
    else (if Outdone(mentioned, among[0]) then [] else [among[0]]) + Longest(mentioned, among[1..])
  }

  function FirstFold(candidates: seq<string>, selected: string): Option<string> {
    if candidates == [] then None
    else if EqualFold(candidates[0], selected) then Some(candidates[0])
    else FirstFold(candidates[1..], selected)
  }

  function MatchName(response: string, candidates: seq<string>): Option<string> {
    var selected := TrimSpace(response);
    if selected in candidates then Some(selected)
    else if FirstFold(candidates, selected).Some? then FirstFold(candidates, selected)
    else
      var mentioned := Mentioned(Lower(selected), candidates);
      var longest := Longest(mentioned, mentioned);
      if |longest| == 1 then Some(longest[0]) else None
  }

  method MatchSelectedName(response: string, candidates: seq<string>) returns (name: Option<string>)
    ensures name == MatchName(response, candidates)
  {
    var selected := TrimSpace(response);
    if selected in candidates {
      return Some(selected);
    }
    for i := 0 to |candidates|
      invariant FirstFold(candidates[i..], selected) == FirstFold(candidates, selected)
    {
      if EqualFold(candidates[i], selected) {
        return Some(candidates[i]);
      }
    }
    var mentioned := CollectMentioned(Lower(selected), candidates);
    var longest := KeepLongest(mentioned);
    name := if |longest| == 1 then Some(longest[0]) else None;
  }

  method CollectMentioned(lowered: string, candidates: seq<string>) returns (mentioned: seq<string>)
    ensures mentioned == Mentioned(lowered, candidates)
  {
    mentioned := [];
    for i := 0 to |candidates|
      invariant mentioned + Mentioned(lowered, candidates[i..]) == Mentioned(lowered, candidates)
    {
      assert candidates[i..][0] == candidates[i] && candidates[i..][1..] == candidates[i + 1..];
      var contained := ContainsWholeName(lowered, Lower(candidates[i]));
      if contained {
        mentioned := mentioned + [candidates[i]];
      }
    }
  }

  method KeepLongest(mentioned: seq<string>) returns (longest: seq<string>)
    ensures longest == Longest(mentioned, mentioned)
  {
    longest := [];
    assert mentioned[0..] == mentioned && [] + Longest(mentioned, mentioned) == Longest(mentioned, mentioned);
    for i := 0 to |mentioned|
      invariant longest + Longest(mentioned, mentioned[i..]) == Longest(mentioned, mentioned)
    {
      LongestStep(mentioned, longest, i);
      if !Outdone(mentioned, mentioned[i]) {
        longest := longest + [mentioned[i]];
      }
    }
  }

  lemma LongestStep(mentioned: seq<string>, longest: seq<string>, i: nat)
    requires i < |mentioned|
    ensures longest + Longest(mentioned, mentioned[i..])
      == (if Outdone(mentioned, mentioned[i]) then longest else longest + [mentioned[i]])
         + Longest(mentioned, mentioned[i + 1..])
  {
    var head := if Outdone(mentioned, mentioned[i]) then [] else [mentioned[i]];
    assert mentioned[i..][0] == mentioned[i] && mentioned[i..][1..] == mentioned[i + 1..];
    Regroup(longest, head, Longest(mentioned, mentioned[i + 1..]));
  }

  lemma Regroup(a: seq<string>, b: seq<string>, c: seq<string>)
    ensures a + (b + c) == (a + b) + c && a + [] == a
  {
  }

  predicate Distinct(names: seq<string>) {
    forall i, j | 0 <= i < j < |names| :: names[i] != names[j]
  }

  predicate LowerCase(s: string) {
    forall i | 0 <= i < |s| :: !('A' <= s[i] <= 'Z')
  }

  lemma LowerCaseFixed(s: string)
    requires LowerCase(s)
    ensures Lower(s) == s
  {
  }

  lemma ContainsAntisymmetric(a: string, b: string)
    requires Contains(a, b) && Contains(b, a)
    ensures a == b
  {
    var i :| 0 <= i <= |a| && OccursAt(a, b, i);
    var j :| 0 <= j <= |b| && OccursAt(b, a, j);
    assert i == 0 && j == 0 && a[0..|a|] == a;
  }

  lemma ContainsShorter(a: string, b: string)
    requires Contains(a, b) && a != b
    ensures |b| < |a|
  {
    var i :| 0 <= i <= |a| && OccursAt(a, b, i);
    if i == 0 {
      assert a[0..|b|] == a[..|b|];
    }
  }

  lemma ContainsTransitive(a: string, b: string, c: string)
    requires Contains(a, b) && Contains(b, c)
    ensures Contains(a, c)
  {
    var i :| 0 <= i <= |a| && OccursAt(a, b, i);
    var j :| 0 <= j <= |b| && OccursAt(b, c, j);
    assert a[i..i + |b|] == b && b[j..j + |c|] == c;
    assert forall k | 0 <= k < |c| :: a[i + j + k] == a[i..i + |b|][j + k] == c[k];
    assert OccursAt(a, c, i + j);
  }

  lemma {:induction false} LongestMembers(mentioned: seq<string>, among: seq<string>)
    ensures forall n :: n in Longest(mentioned, among) <==> n in among && !Outdone(mentioned, n)
    ensures Distinct(among) ==> Distinct(Longest(mentioned, among))
  {
    if among != [] {
      LongestMembers(mentioned, among[1..]);
      var rest := Longest(mentioned, among[1..]);
      assert among == [among[0]] + among[1..];
      if Distinct(among) {
        assert forall i | 0 < i < |among| :: among[i] == among[1..][i - 1];
        assert among[0] !in among[1..];
        var all := Longest(mentioned, among);
        assert all == rest || all == [among[0]] + rest;
        assert forall i | 0 <= i < |rest| :: rest[i] in rest;
      }
    }
  }

  lemma {:induction false} MentionedMembers(lowered: string, candidates: seq<string>)
    ensures forall n :: n in Mentioned(lowered, candidates)
                   <==> n in candidates && ContainsWhole(lowered, Lower(n))
    ensures Distinct(candidates) ==> Distinct(Mentioned(lowered, candidates))
  {
    if candidates != [] {
      MentionedMembers(lowered, candidates[1..]);
      var rest := Mentioned(lowered, candidates[1..]);
      assert candidates == [candidates[0]] + candidates[1..];
      if Distinct(candidates) {
        assert forall i | 0 < i < |candidates| :: candidates[i] == candidates[1..][i - 1];
        assert candidates[0] !in candidates[1..];
        var all := Mentioned(lowered, candidates);
        assert all == rest || all == [candidates[0]] + rest;
        assert forall i | 0 <= i < |rest| :: rest[i] in rest;
      }
    }
  }

  predicate AllLower(names: seq<string>) {
    forall i | 0 <= i < |names| :: LowerCase(names[i])
  }

  /** Every mentioned name lies within one that nothing outdoes. */
  lemma {:induction false} ClimbToLongest(mentioned: seq<string>, name: string, bound: nat) returns (top: string)
    requires name in mentioned && AllLower(mentioned)
    requires forall i | 0 <= i < |mentioned| :: |mentioned[i]| <= bound
    ensures top in mentioned && !Outdone(mentioned, top) && Contains(top, name)
    decreases bound - |name|
  {
    LowerCaseFixed(name);
    if !Outdone(mentioned, name) {
      assert OccursAt(name, name, 0);
      top := name;
    } else {
      var other :| other in mentioned && other != name && Contains(Lower(other), Lower(name));
      LowerCaseFixed(other);
      ContainsShorter(other, name);
      top := ClimbToLongest(mentioned, other, bound);
      ContainsTransitive(top, other, name);
    }
  }

  function MaxLength(names: seq<string>): (m: nat)
    ensures forall i | 0 <= i < |names| :: |names[i]| <= m
  {
    if names == [] then 0
    else
      var m := MaxLength(names[1..]);
      assert forall i | 0 < i < |names| :: names[i] == names[1..][i - 1];
      if |names[0]| > m then |names[0]| else m
  }

  /** The name holds every mentioned one. */
  predicate HoldsAll(mentioned: seq<string>, name: string) {
    name in mentioned && forall i | 0 <= i < |mentioned| :: Contains(name, mentioned[i])
  }

  /** Among distinct lower-case candidates a name is found by mention exactly when
      it is mentioned and holds every other mentioned candidate. */
  lemma FoundByMention(response: string, candidates: seq<string>, name: string)
    requires Distinct(candidates) && AllLower(candidates)
    requires TrimSpace(response) !in candidates && FirstFold(candidates, TrimSpace(response)).None?
    ensures MatchName(response, candidates) == Some(name)
            <==> HoldsAll(Mentioned(Lower(TrimSpace(response)), candidates), name)
  {
    var lowered := Lower(TrimSpace(response));
    var mentioned := Mentioned(lowered, candidates);
    var longest := Longest(mentioned, mentioned);
    MentionedMembers(lowered, candidates);
    LongestMembers(mentioned, mentioned);
    forall i | 0 <= i < |mentioned| ensures LowerCase(mentioned[i]) {
      assert mentioned[i] in mentioned;
      var j :| 0 <= j < |candidates| && candidates[j] == mentioned[i];
    }
    if longest == [name] {
      assert name in longest;
      forall i | 0 <= i < |mentioned| ensures Contains(name, mentioned[i]) {
        var top := ClimbToLongest(mentioned, mentioned[i], MaxLength(mentioned));
        assert top in longest;
      }
    }
    if HoldsAll(mentioned, name) {
      OnlyLongest(mentioned, name);
    }
  }

  lemma OnlyLongest(mentioned: seq<string>, name: string)
    requires AllLower(mentioned) && Distinct(mentioned) && HoldsAll(mentioned, name)
    ensures Longest(mentioned, mentioned) == [name]
  {
    var longest := Longest(mentioned, mentioned);
    LongestMembers(mentioned, mentioned);
    LowerCaseFixed(name);
    forall n | n in mentioned ensures Outdone(mentioned, n) <==> n != name {
      var i :| 0 <= i < |mentioned| && mentioned[i] == n;
      LowerCaseFixed(n);
      assert Contains(name, n);
      if Outdone(mentioned, name) {
        var other :| other in mentioned && other != name && Contains(Lower(other), Lower(name));
        LowerCaseFixed(other);
        ContainsAntisymmetric(other, name);
      }
    }
    assert name in longest;
    forall k | 0 <= k < |longest| ensures longest[k] == name {
      assert longest[k] in longest;
    }
    DistinctAreNotAlike(longest, name);
  }

  lemma DistinctAreNotAlike(s: seq<string>, x: string)
    ensures Distinct(s) && |s| >= 2 ==> exists k :: 0 <= k < |s| && s[k] != x
  {
    if Distinct(s) && |s| >= 2 && s[0] == x {
      assert s[1] != x;
    }
  }

  /** A Kubernetes object name: lower-case letters, digits, '-' and '.'. */
  predicate ValidName(s: string) {
    s != "" && forall i | 0 <= i < |s| :: 'a' <= s[i] <= 'z' || '0' <= s[i] <= '9' || s[i] == '-' || s[i] == '.'
  }

  lemma {:induction false} FirstFoldFinds(candidates: seq<string>, selected: string, name: string)
    requires name in candidates && AllLower(candidates) && Lower(selected) == name
    ensures FirstFold(candidates, selected) == Some(name)
  {
    LowerCaseFixed(candidates[0]);
    if candidates[0] == name {
    } else {
      assert name in candidates[1..];
      FirstFoldFinds(candidates[1..], selected, name);
    }
  }

  lemma FoldedPrefix(trimmed: string, token: string, name: string)
    requires EqualFold(trimmed, name) && LowerCase(name)
    requires |token| <= |trimmed| && EqualFold(trimmed[..|token|], token)
    ensures Lower(token) == name[..|token|]
    ensures |trimmed| == |token| ==> Lower(token) == name
  {
    LowerCaseFixed(name);
    assert forall i | 0 <= i < |token| :: trimmed[..|token|][i] == trimmed[i];
  }

  /** The token is the plain word only when no candidate is called so; the
      fallback holds a character that no name has. */
  lemma TokenLetters(candidates: seq<string>)
    ensures var token := TerminateToken(candidates);
      if exists i | 0 <= i < |candidates| :: EqualFold(candidates[i], TERMINATE)
      then |token| == 14 && Lower(token)[9] == '_' else token == TERMINATE
  {
    assert TERMINATE_FALLBACK[9] == '_';
  }

  lemma NotAToken(candidates: seq<string>, name: string)
    requires name in candidates && LowerCase(name) && Lower(TerminateToken(candidates)) == name
    ensures exists i | 0 <= i < |candidates| :: EqualFold(candidates[i], TERMINATE)
  {
    LowerCaseFixed(name);
    if TerminateToken(candidates) == TERMINATE {
      var k :| 0 <= k < |candidates| && candidates[k] == name;
      assert EqualFold(candidates[k], TERMINATE);
    }
  }

  /** A reply that is a candidate's name, in any case and with blanks around it, is
      never taken as a request to stop and always selects that candidate: also a
      candidate that is itself called terminate, or whose name begins so. */
  lemma NameIsNeverTermination(reply: string, candidates: seq<string>, name: string)
    requires name in candidates && EqualFold(TrimSpace(reply), name)
    requires forall i | 0 <= i < |candidates| :: ValidName(candidates[i])
    ensures ParseTerminate(reply, TerminateToken(candidates)) == None
    ensures MatchName(reply, candidates) == Some(name)
  {
    var trimmed, token := TrimSpace(reply), TerminateToken(candidates);
    var k :| 0 <= k < |candidates| && candidates[k] == name;
    LowerCaseFixed(name);
    assert forall i | 0 <= i < |name| :: LowerChar(trimmed[i]) == name[i];
    if |trimmed| >= |token| && EqualFold(trimmed[..|token|], token) {
      FoldedPrefix(trimmed, token, name);
      if |trimmed| == |token| {
        NotAToken(candidates, name);
      } else {
        assert trimmed[|token|..][0] == trimmed[|token|];
      }
      TokenLetters(candidates);
    }
    assert AllLower(candidates);
    if trimmed in candidates {
      LowerCaseFixed(trimmed);
    } else {
      FirstFoldFinds(candidates, trimmed, name);
    }
  }

  /** A reply asks to stop exactly when, without the blanks around it, it is the token in
      any case, alone or with a colon or a blank behind it. The closing response is what
      follows the whole run of those, without blanks around it. */
  lemma TerminationIsRead(reply: string, token: string, run: string, response: string)
    requires forall i | 0 <= i < |run| :: run[i] in ": \t\n\r"
    requires response != "" ==> response[0] !in ": \t\n\r"
    ensures var trimmed, stop := TrimSpace(reply), ParseTerminate(reply, token);
      if |trimmed| < |token| || !EqualFold(trimmed[..|token|], token) then stop == None
      else if trimmed[|token|..] == run + response then
        stop == if run == "" && response != "" then None else Some(TrimSpace(response))
      else true
  {
    assert forall c: char :: IsSeparator(c) <==> c in ": \t\n\r";
    var trimmed := TrimSpace(reply);
    if |trimmed| >= |token| && trimmed[|token|..] == run + response {
      DropsRun(run, response);
      if run + response != "" {
        assert (run + response)[0] == if run == "" then response[0] else run[0];
      } else {
        assert TrimSpace("") == "";
      }
    }
  }

  lemma {:induction false} DropsRun(run: string, response: string)
    requires forall i | 0 <= i < |run| :: IsSeparator(run[i])
    requires response != "" ==> !IsSeparator(response[0])
    ensures TrimLeft(run + response, IsSeparator) == response
  {
    if run == "" {
      assert run + response == response;
    } else {
      assert (run + response)[1..] == run[1..] + response;
      DropsRun(run[1..], response);
    }
  }

  /** The same letter, capital or small. */
  predicate SameLetter(c: char, d: char) {
    c == d || ('A' <= c <= 'Z' && d as int == c as int + 32) || ('A' <= d <= 'Z' && c as int == d as int + 32)
  }

  /** Two texts are equal up to case exactly when they are so letter by letter. What
      continues a name is exactly what a name may hold in any case, except a dot. */
  lemma FoldedLetterByLetter(a: string, b: string)
    ensures EqualFold(a, b) <==> |a| == |b| && forall i | 0 <= i < |a| :: SameLetter(a[i], b[i])
    ensures forall c: char :: IsNameChar(c) <==> c != '.' && ValidName([LowerChar(c)])
  {
    if EqualFold(a, b) {
      forall i | 0 <= i < |a| ensures SameLetter(a[i], b[i]) {
        assert Lower(a)[i] == Lower(b)[i];
      }
    }
    forall c: char ensures IsNameChar(c) <==> c != '.' && ValidName([LowerChar(c)]) {
      assert [LowerChar(c)][0] == LowerChar(c);
    }
  }
}
