/** The ASCII part of the Python string operations the executor normalizes text with. */
module Texts {

  predicate IsSpace(c: char) {
    9 <= c as int <= 13 || 28 <= c as int <= 32
  }

  predicate IsAlnum(c: char) {
    '0' <= c <= '9' || 'a' <= c <= 'z' || 'A' <= c <= 'Z'
  }

  function LowerChar(c: char): char {
    if 'A' <= c <= 'Z' then (c - 'A') + 'a' else c
  }

  function UpperChar(c: char): char {
    if 'a' <= c <= 'z' then (c - 'a') + 'A' else c
  }

  function Lower(s: string): string {
    seq(|s|, i requires 0 <= i < |s| => LowerChar(s[i]))
  }

  function Upper(s: string): string {
    seq(|s|, i requires 0 <= i < |s| => UpperChar(s[i]))
  }

  /** `s.replace(a, b)` for single characters. */
  function Replace(s: string, a: char, b: char): string {
    seq(|s|, i requires 0 <= i < |s| => if s[i] == a then b else s[i])
  }

  predicate Stripped(s: string) {
    s != "" ==> !IsSpace(s[0]) && !IsSpace(s[|s| - 1])
  }

  function Strip(s: string): (r: string)
    ensures Stripped(r) && |r| <= |s|
    ensures Stripped(s) ==> r == s
  {
    if s != "" && IsSpace(s[0]) then Strip(s[1..])
    else if s != "" && IsSpace(s[|s| - 1]) then Strip(s[..|s| - 1])
    else s
  }

  predicate StartsWith(s: string, prefix: string) {
    prefix <= s
  }

  predicate EndsWith(s: string, suffix: string) {
    |suffix| <= |s| && s[|s| - |suffix|..] == suffix
  }

  lemma UpperStripped(s: string)
    requires Stripped(s)
    ensures Stripped(Upper(s))
  {
  }

  lemma UpperIdempotent(s: string)
    ensures Upper(Upper(s)) == Upper(s)
  {
  }

  /** `r` is what is left of `s` between positions `i` and `j`, and there is only white space outside. */
  predicate Cut(s: string, r: string, i: int, j: int) {
    && 0 <= i <= j <= |s| && r == s[i..j]
    && (forall k | 0 <= k < i :: IsSpace(s[k])) && (forall k | j <= k < |s| :: IsSpace(s[k]))
  }

  lemma CutFront(c: char, rest: string, r: string, i: int, j: int)
    requires IsSpace(c) && Cut(rest, r, i, j)
    ensures Cut([c] + rest, r, i + 1, j + 1)
  {
    assert ([c] + rest)[i + 1..j + 1] == rest[i..j];
  }

  lemma CutBack(rest: string, c: char, r: string, i: int, j: int)
    requires IsSpace(c) && Cut(rest, r, i, j)
    ensures Cut(rest + [c], r, i, j)
  {
    assert (rest + [c])[i..j] == rest[i..j];
  }

  /** Stripping takes white space off both ends, all of it, and nothing else. */
  lemma {:induction false} StripCutsSpace(s: string)
    ensures Stripped(Strip(s)) && exists i, j :: Cut(s, Strip(s), i, j)
  {
    hide Cut;
    if s != "" && IsSpace(s[0]) {
      StripCutsSpace(s[1..]);
      var i, j :| Cut(s[1..], Strip(s[1..]), i, j);
      assert s == [s[0]] + s[1..];
      CutFront(s[0], s[1..], Strip(s[1..]), i, j);
    } else if s != "" && IsSpace(s[|s| - 1]) {
      var front := s[..|s| - 1];
      StripCutsSpace(front);
      var i, j :| Cut(front, Strip(front), i, j);
      assert s == front + [s[|s| - 1]];
      CutBack(front, s[|s| - 1], Strip(front), i, j);
    } else {
      CutNothing(s);
    }
  }

  lemma CutNothing(s: string)
    ensures Cut(s, s, 0, |s|)
  {
  }

  /** The two cases of a text fold into each other. */
  lemma CasesFold(s: string)
    ensures Lower(Upper(s)) == Lower(s) && Upper(Lower(s)) == Upper(s)
  {
  }

  // ----- spelling -------------------------------------------------------------------------

  /** Either case of a letter is the same, and so are a dash and an underscore. */
  function Folded(c: char): char {
    if c == '-' then '_' else LowerChar(c)
  }

  /** Between positions `i` and `j` the text spells the word; there is only white space outside. */
  predicate SpellsFrom(s: string, word: string, i: int, j: int) {
    && 0 <= i <= j <= |s| && |word| == j - i
    && (forall k | i <= k < j :: Folded(s[k]) == word[k - i])
    && (forall k | 0 <= k < i :: IsSpace(s[k])) && (forall k | j <= k < |s| :: IsSpace(s[k]))
  }

  ghost predicate Spells(s: string, word: string) {
    exists i, j :: SpellsFrom(s, word, i, j)
  }

  /** What is left when all the white space around it is cut off is the stripped text. */
  lemma {:induction false} CutIsStrip(s: string, r: string, i: int, j: int)
    requires Cut(s, r, i, j) && Stripped(r)
    ensures r == Strip(s)
  {
    if s != "" && IsSpace(s[0]) {
      var t := s[1..];
      assert forall k | 0 <= k < |t| :: t[k] == s[k + 1];
      if r == "" {
        CutIsStrip(t, "", 0, 0);
      } else {
        assert r[0] == s[i] && t[i - 1..j - 1] == s[i..j];
        CutIsStrip(t, r, i - 1, j - 1);
      }
    } else if s != "" && IsSpace(s[|s| - 1]) {
      var t := s[..|s| - 1];
      assert i < j;
      assert r[|r| - 1] == s[j - 1] && t[i..j] == s[i..j];
      CutIsStrip(t, r, i, j);
    } else {
      assert s[i..j] == s;
    }
  }

  lemma CutSpells(s: string, r: string, i: int, j: int)
    requires Cut(s, r, i, j)
    ensures SpellsFrom(s, Replace(Lower(r), '-', '_'), i, j)
  {
  }

  lemma SpelledIsCut(s: string, word: string, i: int, j: int)
    requires SpellsFrom(s, word, i, j) && Stripped(word)
    ensures Cut(s, s[i..j], i, j) && Stripped(s[i..j]) && Replace(Lower(s[i..j]), '-', '_') == word
  {
  }

  /** Normalizing a text gives a word exactly when the text spells it. */
  lemma NormalizedSpells(s: string, word: string)
    requires Stripped(word)
    ensures Replace(Lower(Strip(s)), '-', '_') == word <==> Spells(s, word)
  {
    hide Strip, Cut, SpellsFrom, Replace, Lower, Stripped;
    StripCutsSpace(s);
    var i, j :| Cut(s, Strip(s), i, j);
    CutSpells(s, Strip(s), i, j);
    if Spells(s, word) {
      var a, b :| SpellsFrom(s, word, a, b);
      SpelledIsCut(s, word, a, b);
      CutIsStrip(s, s[a..b], a, b);
    }
  }

  /** The same for words without a dash, when dashes are kept. */
  lemma LoweredSpells(s: string, word: string)
    requires Stripped(word) && '_' !in word && '-' !in word
    ensures Lower(Strip(s)) == word <==> Spells(s, word)
  {
    NormalizedSpells(s, word);
    hide Strip, Spells;
    var t := Lower(Strip(s));
    var u := Replace(t, '-', '_');
    if u == word {
      forall k | 0 <= k < |t| ensures t[k] == u[k] {
        assert u[k] in word;
      }
      assert t == u;
    }
    if t == word {
      forall k | 0 <= k < |t| ensures t[k] == u[k] {
        assert t[k] in word;
      }
      assert t == u;
    }
  }

  // ----- picking characters ---------------------------------------------------------------

  predicate Increasing(at: seq<int>) {
    forall m, n | 0 <= m < n < |at| :: at[m] < at[n]
  }

  predicate TakenFrom(s: string, t: string, keep: char -> bool, change: char -> char, at: seq<int>) {
    |at| == |t| && forall m | 0 <= m < |at| :: 0 <= at[m] < |s| && keep(s[at[m]]) && t[m] == change(s[at[m]])
  }

  /** `t` is what is left of `s` when only the characters to keep are kept, each of them changed. */
  predicate Picked(s: string, t: string, keep: char -> bool, change: char -> char, at: seq<int>) {
    Increasing(at) && TakenFrom(s, t, keep, change, at) && forall k | 0 <= k < |s| && keep(s[k]) :: k in at
  }

  /** Nothing else is left. */
  lemma {:induction false} PickedOnce(s: string, t: string, u: string, keep: char -> bool, change: char -> char,
                                      at: seq<int>, to: seq<int>)
    requires Picked(s, t, keep, change, at) && Picked(s, u, keep, change, to)
    ensures t == u
  {
    SamePositions(at, to);
  }

  lemma SameEmpty(at: seq<int>, to: seq<int>)
    requires forall k :: k in at ==> k in to
    ensures to == [] ==> at == []
  {
    if at != [] {
      var k := at[0];
      assert k in at && k in to;
    }
  }

  lemma {:induction false} SamePositions(at: seq<int>, to: seq<int>)
    requires Increasing(at) && Increasing(to)
    requires forall k :: k in at <==> k in to
    ensures at == to
  {
    SameEmpty(at, to);
    SameEmpty(to, at);
    if at != [] && to != [] {
      var m, n := |at| - 1, |to| - 1;
      assert at[m] in to && to[n] in at;
      assert at[m] == to[n];
      forall k ensures k in at[..m] <==> k in to[..n] {
        assert k in at[..m] ==> k in at && k != at[m];
        assert k in to[..n] ==> k in to && k != to[n];
      }
      SamePositions(at[..m], to[..n]);
      assert at == at[..m] + [at[m]] && to == to[..n] + [to[n]];
    }
  }

  function Shifted(at: seq<int>): seq<int> {
    seq(|at|, m requires 0 <= m < |at| => at[m] + 1)
  }

  lemma ShiftedHas(at: seq<int>, k: int)
    requires k in at
    ensures k + 1 in Shifted(at)
  {
    var m :| 0 <= m < |at| && at[m] == k;
    assert Shifted(at)[m] == k + 1;
  }

  lemma ShiftedTakes(c: char, rest: string, t: string, keep: char -> bool, change: char -> char, at: seq<int>)
    requires Increasing(at) && TakenFrom(rest, t, keep, change, at)
    ensures Increasing(Shifted(at)) && TakenFrom([c] + rest, t, keep, change, Shifted(at))
  {
    assert forall k | 0 <= k < |rest| :: ([c] + rest)[k + 1] == rest[k];
  }

  lemma FrontTakes(s: string, t: string, keep: char -> bool, change: char -> char, at: seq<int>)
    requires Increasing(at) && TakenFrom(s, t, keep, change, at) && s != "" && keep(s[0])
    requires forall m | 0 <= m < |at| :: at[m] > 0
    ensures Increasing([0] + at) && TakenFrom(s, [change(s[0])] + t, keep, change, [0] + at)
  {
  }

  lemma PickKept(c: char, rest: string, t: string, keep: char -> bool, change: char -> char, at: seq<int>)
    requires Picked(rest, t, keep, change, at) && keep(c)
    ensures Picked([c] + rest, [change(c)] + t, keep, change, [0] + Shifted(at))
  {
    ShiftedTakes(c, rest, t, keep, change, at);
    assert forall m | 0 <= m < |at| :: Shifted(at)[m] > 0;
    var s := [c] + rest;
    FrontTakes(s, t, keep, change, Shifted(at));
    hide Increasing, TakenFrom;
    forall k | 0 <= k < |s| && keep(s[k]) ensures k in [0] + Shifted(at) {
      if k > 0 {
        ShiftedHas(at, k - 1);
      }
    }
  }

  lemma PickDropped(c: char, rest: string, t: string, keep: char -> bool, change: char -> char, at: seq<int>)
    requires Picked(rest, t, keep, change, at) && !keep(c)
    ensures Picked([c] + rest, t, keep, change, Shifted(at))
  {
    ShiftedTakes(c, rest, t, keep, change, at);
    hide Increasing, TakenFrom;
    var s := [c] + rest;
    forall k | 0 <= k < |s| && keep(s[k]) ensures k in Shifted(at) {
      ShiftedHas(at, k - 1);
    }
  }
}
