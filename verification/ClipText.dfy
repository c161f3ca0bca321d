/** The string operations clip assembly is written with, each by what it finds. */
module ClipText {
  import opened Prelude

  predicate Occurs(s: string, pat: string, i: nat) {
    i + |pat| <= |s| && s[i..i + |pat|] == pat
  }

  /** Where `pat` first occurs at or behind `from`. */
  function FindFrom(s: string, pat: string, from: nat): (r: Option<nat>)
    requires from <= |s|
    ensures r.Some? ==> from <= r.value && Occurs(s, pat, r.value)
    ensures forall i: nat :: from <= i && (r.Some? ==> i < r.value) ==> !Occurs(s, pat, i)
    decreases |s| - from
  {
    if Occurs(s, pat, from) then Some(from)
    else if from == |s| then None
    else FindFrom(s, pat, from + 1)
  }

  /** `str::find` of a string or, as a string of length one, of a char. */
  function Find(s: string, pat: string): (r: Option<nat>)
    ensures r.Some? ==> Occurs(s, pat, r.value)
    ensures forall i: nat :: (r.Some? ==> i < r.value) ==> !Occurs(s, pat, i)
  {
    FindFrom(s, pat, 0)
  }

  predicate Contains(s: string, pat: string) {
    Find(s, pat).Some?
  }

  /** `split(stops).next()`: everything ahead of the first char that is one of `stops`. */
  function UpTo(s: string, stops: string): (r: string)
    ensures |r| <= |s| && r == s[..|r|]
    ensures forall i :: 0 <= i < |r| ==> s[i] !in stops
    ensures |r| < |s| ==> s[|r|] in stops
  {
    if s == [] || s[0] in stops then [] else [s[0]] + UpTo(s[1..], stops)
  }

  /** `rfind('/')`. */
  function LastSlash(s: string): (r: Option<nat>)
    ensures r.Some? ==> r.value < |s| && s[r.value] == '/' && forall i :: r.value < i < |s| ==> s[i] != '/'
    ensures r.None? ==> '/' !in s
  {
    if s == [] then None
    else if s[|s| - 1] == '/' then Some(|s| - 1)
    else LastSlash(s[..|s| - 1])
  }

  /** The Unicode `White_Space` property. */
  predicate IsWhite(c: char) {
    var n := c as int;
    || 0x9 <= n <= 0xD || n == 0x20 || n == 0x85 || n == 0xA0 || n == 0x1680
    || 0x2000 <= n <= 0x200A || n == 0x2028 || n == 0x2029 || n == 0x202F || n == 0x205F || n == 0x3000
  }

  function TrimStart(s: string): string {
    if s != [] && IsWhite(s[0]) then TrimStart(s[1..]) else s
  }

  function TrimEnd(s: string): string {
    if s != [] && IsWhite(s[|s| - 1]) then TrimEnd(s[..|s| - 1]) else s
  }

  function Trim(s: string): string {
    TrimEnd(TrimStart(s))
  }

  /** The pieces between newlines. A `\r` ahead of one, which `lines` drops, is white space to `trim`. */
  function Lines(s: string): seq<string> {
    var line := UpTo(s, "\n");
    [line] + if |line| == |s| then [] else Lines(s[|line| + 1..])
  }

  // ----- facts about them -----

  /** An occurrence lies in the part two strings share, or in neither's. */
  lemma OccursInPrefix(a: string, b: string, k: nat, pat: string, i: nat)
    requires k <= |a| && k <= |b| && a[..k] == b[..k] && i + |pat| <= k
    ensures Occurs(a, pat, i) <==> Occurs(b, pat, i)
  {
    assert a[i..i + |pat|] == a[..k][i..i + |pat|];
    assert b[i..i + |pat|] == b[..k][i..i + |pat|];
  }

  lemma FindIs(s: string, pat: string, k: nat)
    requires Occurs(s, pat, k) && forall j: nat :: j < k ==> !Occurs(s, pat, j)
    ensures Find(s, pat) == Some(k)
  {
  }

  lemma Parts(a: string, b: string, c: string)
    ensures var s := a + b + c;
            && s == a + (b + c) && s[..|a|] == a && s[|a|..] == b + c
            && s[..|a| + |b|] == a + b && s[|a| + |b|..] == c && s[|a|..|a| + |b|] == b
  {
    assert a + b + c == a + (b + c);
  }

  lemma UpToIs(s: string, stops: string, k: nat)
    requires k <= |s| && forall i :: 0 <= i < k ==> s[i] !in stops
    requires k < |s| ==> s[k] in stops
    ensures UpTo(s, stops) == s[..k]
  {
    assert |UpTo(s, stops)| == k;
  }

  lemma UpToParts(a: string, b: string, stops: string)
    requires (forall i :: 0 <= i < |a| ==> a[i] !in stops) && (b != [] ==> b[0] in stops)
    ensures UpTo(a + b, stops) == a
  {
    UpToIs(a + b, stops, |a|);
    assert (a + b)[..|a|] == a;
  }

  lemma LinesOfJoin(line: string, rest: string)
    requires '\n' !in line
    ensures Lines(line + "\n" + rest) == [line] + Lines(rest)
  {
    var s := line + "\n" + rest;
    UpToIs(s, "\n", |line|);
    assert s[..|line|] == line && s[|line| + 1..] == rest;
  }

  /** Lines, each ended by a newline. */
  function Joined(lines: seq<string>): string {
    if lines == [] then "" else lines[0] + "\n" + Joined(lines[1..])
  }

  lemma {:induction false} LinesOfJoined(lines: seq<string>)
    requires forall i :: 0 <= i < |lines| ==> '\n' !in lines[i]
    ensures Lines(Joined(lines)) == lines + [""]
  {
    if lines != [] {
      var first, rest := lines[0], lines[1..];
      assert lines == [first] + rest;
      LinesOfJoined(rest);
      LinesOfJoin(first, Joined(rest));
      assert Lines(Joined(lines)) == [first] + (rest + [""]);
    }
  }

  predicate Bare(s: string) {
    s != [] && !IsWhite(s[0]) && !IsWhite(s[|s| - 1])
  }

  /** White space around a text that neither starts nor ends with it goes, and nothing else. */
  lemma TrimBare(before: string, s: string, after: string)
    requires Bare(s) && (forall c :: c in before ==> IsWhite(c)) && (forall c :: c in after ==> IsWhite(c))
    ensures Trim(before + s + after) == s
  {
    TrimStartBare(before, s + after);
    assert before + s + after == before + (s + after);
    TrimEndBare(s, after);
  }

  lemma {:induction false} TrimStartBare(before: string, s: string)
    requires s != [] && !IsWhite(s[0]) && forall c :: c in before ==> IsWhite(c)
    ensures TrimStart(before + s) == s
  {
    if before == [] {
      assert before + s == s;
    } else {
      assert before[0] in before;
      assert (before + s)[1..] == before[1..] + s;
      TrimStartBare(before[1..], s);
    }
  }

  lemma {:induction false} TrimEndBare(s: string, after: string)
    requires s != [] && !IsWhite(s[|s| - 1]) && forall c :: c in after ==> IsWhite(c)
    ensures TrimEnd(s + after) == s
    decreases |after|
  {
    if after == [] {
      assert s + after == s;
    } else {
      var init := after[..|after| - 1];
      assert after[|after| - 1] in after;
      assert (s + after)[..|s + after| - 1] == s + init;
      TrimEndBare(s, init);
    }
  }

  lemma {:induction false} TrimWhite(s: string)
    requires forall c :: c in s ==> IsWhite(c)
    ensures Trim(s) == ""
  {
    if s != [] {
      assert s[0] in s;
      TrimWhite(s[1..]);
    }
  }
}
