/**
 * The string primitives that run_model.py relies on: `str.split()` with no
 * argument, `str.join`, `str.strip()` and the substitution
 * `re.sub(r'[^\x00-\x7F]+', ' ', text)`.
 *
 * Whitespace is Python's `str.isspace()` restricted to ASCII. Every string
 * these functions see in the pipeline has already been through the
 * non-ASCII cleanup, so on those strings the restriction is exact.
 */
module Text {

  /** Python's `str.isspace()` on an ASCII character: \t \n \v \f \r, the
      separators \x1c..\x1f and the space. */
  predicate IsSpace(c: char)
  {
    9 <= c as int <= 13 || 28 <= c as int <= 32
  }

  predicate IsAscii(c: char)
  {
    c as int < 128
  }

  predicate AllAscii(s: string)
  {
    forall i :: 0 <= i < |s| ==> IsAscii(s[i])
  }

  predicate AllSpace(s: string)
  {
    forall i :: 0 <= i < |s| ==> IsSpace(s[i])
  }

  /** Every character of `s[lo..hi]` is whitespace. This is `AllSpace`
      over a range of indices; stating it on indices spares the solver the
      slice `s[lo..hi]`, which makes the contract of `Strip` costly. */
  predicate AllSpaceIn(s: string, lo: int, hi: int)
    requires 0 <= lo <= hi <= |s|
  {
    forall i :: lo <= i < hi ==> IsSpace(s[i])
  }

  /** What `str.split()` yields: non-empty and free of whitespace. */
  predicate IsWord(w: string)
  {
    w != [] && forall i :: 0 <= i < |w| ==> !IsSpace(w[i])
  }

  // ---------------------------------------------------------------- strip

  /** `s.lstrip()`: the longest suffix of `s` that does not start with whitespace. */
  function StripStart(s: string): (r: string)
    ensures |r| <= |s| && r == s[|s| - |r|..]
    ensures r != [] ==> !IsSpace(r[0])
    ensures forall i :: 0 <= i < |s| - |r| ==> IsSpace(s[i])
  {
    if s != [] && IsSpace(s[0]) then
      var r := StripStart(s[1..]);
      assert forall i :: 1 <= i < |s| - |r| ==> s[i] == s[1..][i - 1];
      r
    else
      s
  }

  /** `s.rstrip()`: the longest prefix of `s` that does not end with whitespace. */
  function StripEnd(s: string): (r: string)
    ensures |r| <= |s| && r == s[..|r|]
    ensures r != [] ==> !IsSpace(r[|r| - 1])
    ensures forall i :: |r| <= i < |s| ==> IsSpace(s[i])
  {
    if s != [] && IsSpace(s[|s| - 1]) then
      var r := StripEnd(s[..|s| - 1]);
      assert forall i :: |r| <= i < |s| - 1 ==> s[i] == s[..|s| - 1][i];
      r
    else
      s
  }

  /** `s.strip()`: the slice of `s` left after removing a whitespace prefix
      and a whitespace suffix; empty exactly when `s` is all whitespace, and
      otherwise neither starts nor ends with whitespace. */
  function Strip(s: string): (r: string)
    ensures var d := |s| - |StripStart(s)|;
      && 0 <= d && d + |r| <= |s|
      && (forall i :: 0 <= i < |r| ==> r[i] == s[d + i])
      && AllSpaceIn(s, 0, d) && AllSpaceIn(s, d + |r|, |s|)
    ensures r == [] <==> AllSpace(s)
    ensures r != [] ==> !IsSpace(r[0]) && !IsSpace(r[|r| - 1])
    ensures AllAscii(s) ==> AllAscii(r)
  {
    StripSlice(s);
    StripEmpty(s);
    StripEnds(s);
    StripAscii(s);
    StripEnd(StripStart(s))
  }

  lemma StripSlice(s: string)
    ensures var t := StripStart(s);
      var d := |s| - |t|;
      var r := StripEnd(t);
      && 0 <= d && d + |r| <= |s|
      && (forall i :: 0 <= i < |r| ==> r[i] == s[d + i])
      && AllSpaceIn(s, 0, d) && AllSpaceIn(s, d + |r|, |s|)
  {
    var t := StripStart(s);
    var d := |s| - |t|;
    var r := StripEnd(t);
    assert t == s[d..];
    assert r == t[..|r|];
    forall i | 0 <= i < |r| ensures r[i] == s[d + i] {
      assert r[i] == t[i] == s[d..][i];
    }
    forall i | d + |r| <= i < |s| ensures IsSpace(s[i]) {
      assert s[i] == s[d..][i - d] == t[i - d];
    }
  }

  lemma StripEmpty(s: string)
    ensures StripEnd(StripStart(s)) == [] <==> AllSpace(s)
  {
    var t := StripStart(s);
    if StripEnd(t) == [] && t != [] {
      assert false;
    }
    if t != [] {
      assert !IsSpace(s[|s| - |t|]);
    }
  }

  lemma StripEnds(s: string)
    ensures var r := StripEnd(StripStart(s));
      r != [] ==> !IsSpace(r[0]) && !IsSpace(r[|r| - 1])
  {
    var t := StripStart(s);
    var r := StripEnd(t);
    if r != [] {
      assert r[0] == t[0];
    }
  }

  lemma StripAscii(s: string)
    ensures AllAscii(s) ==> AllAscii(StripEnd(StripStart(s)))
  {
    var t := StripStart(s);
    var r := StripEnd(t);
    var d := |s| - |t|;
    if AllAscii(s) {
      forall i | 0 <= i < |r| ensures IsAscii(r[i]) {
        assert r[i] == t[i] == s[d + i];
      }
    }
  }

  // ---------------------------------------------------------------- split

  /** The longest prefix of `s` free of whitespace. */
  function TakeWord(s: string): (w: string)
    ensures |w| <= |s| && w == s[..|w|]
    ensures forall i :: 0 <= i < |w| ==> !IsSpace(w[i])
    ensures |w| < |s| ==> IsSpace(s[|w|])
  {
    if s == [] || IsSpace(s[0]) then []
    else
      var w := TakeWord(s[1..]);
      assert forall i :: 1 <= i < |w| + 1 ==> ([s[0]] + w)[i] == w[i - 1];
      [s[0]] + w
  }

  /** `s.split()`: the maximal whitespace-free runs of `s`, in order. */
  function Words(s: string): (ws: seq<string>)
    ensures forall i :: 0 <= i < |ws| ==> IsWord(ws[i])
    decreases |s|
  {
    var t := StripStart(s);
    if t == [] then []
    else
      var w := TakeWord(t);
      [w] + Words(t[|w|..])
  }

  /** `sep.join(parts)`: empty for no parts; otherwise it starts with the
      first part. */
  function JoinWith(sep: string, parts: seq<string>): (r: string)
    ensures parts == [] ==> r == []
    ensures parts != [] ==> parts[0] <= r
  {
    if |parts| == 0 then []
    else if |parts| == 1 then parts[0]
    else parts[0] + sep + JoinWith(sep, parts[1..])
  }

  /** `sep.join(parts)` ends with the last part. */
  lemma {:induction false} JoinWithLast(sep: string, parts: seq<string>)
    requires parts != []
    ensures var r := JoinWith(sep, parts);
      var last := parts[|parts| - 1];
      |last| <= |r| && forall i :: 0 <= i < |last| ==> r[|r| - |last| + i] == last[i]
  {
    if |parts| > 1 {
      var tail := parts[1..];
      JoinWithLast(sep, tail);
      assert tail[|tail| - 1] == parts[|parts| - 1];
      var rest := JoinWith(sep, tail);
      var r := JoinWith(sep, parts);
      assert r == parts[0] + sep + rest;
      assert forall i :: 0 <= i < |rest| ==> r[|r| - |rest| + i] == rest[i];
    }
  }

  /** A string has a word exactly when it is not all whitespace. */
  lemma WordsEmpty(s: string)
    ensures Words(s) == [] <==> AllSpace(s)
  {
    var t := StripStart(s);
    if t != [] {
      assert !IsSpace(s[|s| - |t|]);
    }
  }

  /** Leading whitespace does not change the words of a string. */
  lemma WordsSkipSpace(c: char, s: string)
    requires IsSpace(c)
    ensures Words([c] + s) == Words(s)
  {
    assert ([c] + s)[1..] == s;
    assert StripStart([c] + s) == StripStart(s);
  }

  /** A word followed by whitespace (or by nothing) is taken whole. */
  lemma {:induction false} TakeWordPrefix(w: string, rest: string)
    requires forall i :: 0 <= i < |w| ==> !IsSpace(w[i])
    requires rest == [] || IsSpace(rest[0])
    ensures TakeWord(w + rest) == w
  {
    if w != [] {
      TakeWordPrefix(w[1..], rest);
      assert (w + rest)[1..] == w[1..] + rest;
    }
  }

  /** A word followed by whitespace (or by nothing) is the first word. */
  lemma WordsCons(w: string, rest: string)
    requires IsWord(w)
    requires rest == [] || IsSpace(rest[0])
    ensures Words(w + rest) == [w] + Words(rest)
  {
    var j := w + rest;
    assert j[0] == w[0];
    assert StripStart(j) == j;
    TakeWordPrefix(w, rest);
    assert j[|w|..] == rest;
  }

  lemma JoinCons(ws: seq<string>)
    requires |ws| > 1
    ensures JoinWith(" ", ws) == ws[0] + ([' '] + JoinWith(" ", ws[1..]))
  {
    assert ws[0] + " " + JoinWith(" ", ws[1..]) == ws[0] + ([' '] + JoinWith(" ", ws[1..]));
  }

  lemma WordsNil()
    ensures Words([]) == []
  {
    assert StripStart([]) == [];
  }

  lemma WordsSingle(w: string)
    requires IsWord(w)
    ensures Words(w) == [w]
  {
    WordsCons(w, []);
    assert w + [] == w;
  }

  /** A word, a space and further words: the word comes first. */
  lemma JoinStep(ws: seq<string>)
    requires |ws| > 1 && IsWord(ws[0])
    ensures Words(JoinWith(" ", ws)) == [ws[0]] + Words(JoinWith(" ", ws[1..]))
  {
    var tail := JoinWith(" ", ws[1..]);
    JoinCons(ws);
    WordsCons(ws[0], [' '] + tail);
    WordsSkipSpace(' ', tail);
  }

  /** Splitting words that were joined by single spaces gives them back. */
  lemma {:induction false} SplitJoin(ws: seq<string>)
    requires forall i :: 0 <= i < |ws| ==> IsWord(ws[i])
    ensures Words(JoinWith(" ", ws)) == ws
  {
    if ws == [] {
      WordsNil();
    } else if |ws| == 1 {
      WordsSingle(ws[0]);
    } else {
      var rest := ws[1..];
      assert forall i :: 0 <= i < |rest| ==> rest[i] == ws[i + 1];
      SplitJoin(rest);
      JoinStep(ws);
      assert [ws[0]] + rest == ws;
    }
  }

  /** `seps[0] + ws[0] + seps[1] + ... + ws[n - 1] + seps[n]`. */
  function Interleave(seps: seq<string>, ws: seq<string>): string
    requires |seps| == |ws| + 1
    decreases |ws|
  {
    if ws == [] then seps[0] else seps[0] + ws[0] + Interleave(seps[1..], ws[1..])
  }

  /** Separators for `n` words: whitespace only, and non-empty between two
      words (the outer two may be empty). */
  predicate IsSeparation(seps: seq<string>, n: nat)
  {
    && |seps| == n + 1
    && (forall i :: 0 <= i < |seps| ==> AllSpace(seps[i]))
    && (forall i :: 0 < i < n ==> seps[i] != [])
  }

  lemma {:induction false} StripStartSkip(sp: string, s: string)
    requires AllSpace(sp)
    ensures StripStart(sp + s) == StripStart(s)
    decreases |sp|
  {
    if sp != [] {
      var x := sp + s;
      var tl := sp[1..];
      assert IsSpace(sp[0]);
      assert x[0] == sp[0];
      assert x[1..] == tl + s;
      assert AllSpace(tl) by {
        forall i | 0 <= i < |tl| ensures IsSpace(tl[i]) {
          assert tl[i] == sp[i + 1];
        }
      }
      StripStartSkip(tl, s);
      assert StripStart(x) == StripStart(x[1..]);
    } else {
      assert sp + s == s;
    }
  }

  /** Leading whitespace of any length does not change the words. */
  lemma WordsSkipSpaces(sp: string, s: string)
    requires AllSpace(sp)
    ensures Words(sp + s) == Words(s)
  {
    StripStartSkip(sp, s);
  }

  /** Whitespace, a word, then whitespace or nothing: that word comes first. */
  lemma WordsAfterSpaces(sp: string, w: string, rest: string)
    requires AllSpace(sp) && IsWord(w)
    requires rest == [] || IsSpace(rest[0])
    ensures Words(sp + (w + rest)) == [w] + Words(rest)
  {
    WordsSkipSpaces(sp, w + rest);
    WordsCons(w, rest);
  }

  /** After the first word, the rest of an interleaving is empty or starts
      with whitespace. */
  lemma InterleaveTail(seps: seq<string>, ws: seq<string>)
    requires IsSeparation(seps, |ws|) && ws != []
    ensures var rest := Interleave(seps[1..], ws[1..]);
      rest == [] || IsSpace(rest[0])
  {
    var rest := Interleave(seps[1..], ws[1..]);
    assert AllSpace(seps[1]);
    if |ws| > 1 {
      assert seps[1] != [];
      assert rest[0] == seps[1][0];
    }
  }

  lemma InterleaveStep(seps: seq<string>, ws: seq<string>)
    requires |seps| == |ws| + 1 && ws != []
    ensures Interleave(seps, ws) == seps[0] + (ws[0] + Interleave(seps[1..], ws[1..]))
  {
  }

  lemma SeparationTail(seps: seq<string>, n: nat)
    requires IsSeparation(seps, n + 1)
    ensures IsSeparation(seps[1..], n)
  {
    assert forall i :: 0 <= i < |seps| - 1 ==> seps[1..][i] == seps[i + 1];
  }

  /** `str.split()` on words separated by any whitespace gives the words
      back: it splits at every run of whitespace and drops the ends. */
  lemma {:induction false} SplitAnySeparators(seps: seq<string>, ws: seq<string>)
    requires forall i :: 0 <= i < |ws| ==> IsWord(ws[i])
    requires IsSeparation(seps, |ws|)
    ensures Words(Interleave(seps, ws)) == ws
    decreases |ws|
  {
    assert AllSpace(seps[0]);
    if ws == [] {
      WordsSkipSpaces(seps[0], []);
      assert seps[0] + [] == seps[0];
      WordsNil();
    } else {
      var tail := ws[1..];
      assert forall i :: 0 <= i < |tail| ==> IsWord(tail[i]) by {
        forall i | 0 <= i < |tail| ensures IsWord(tail[i]) {
          assert tail[i] == ws[i + 1];
        }
      }
      SeparationTail(seps, |tail|);
      SplitAnySeparators(seps[1..], tail);
      InterleaveWords(seps, ws);
    }
  }

  /** The induction step of `SplitAnySeparators`. */
  lemma InterleaveWords(seps: seq<string>, ws: seq<string>)
    requires IsSeparation(seps, |ws|) && ws != [] && IsWord(ws[0])
    requires Words(Interleave(seps[1..], ws[1..])) == ws[1..]
    ensures Words(Interleave(seps, ws)) == ws
  {
    var rest := Interleave(seps[1..], ws[1..]);
    InterleaveStep(seps, ws);
    InterleaveTail(seps, ws);
    WordsAfterSpaces(seps[0], ws[0], rest);
    assert [ws[0]] + ws[1..] == ws;
  }

  /** The whitespace runs of `s` around and between its words. */
  function SeparatorsOf(s: string): (seps: seq<string>)
    decreases |s|
  {
    var t := StripStart(s);
    if t == [] then [s]
    else
      var w := TakeWord(t);
      [s[..|s| - |t|]] + SeparatorsOf(t[|w|..])
  }

  /** One step of `SeparatorsOf` on a string with a word. */
  lemma SeparatorsStep(s: string)
    requires StripStart(s) != []
    ensures var t := StripStart(s);
      SeparatorsOf(s) == [s[..|s| - |t|]] + SeparatorsOf(t[|TakeWord(t)|..])
  {
    var t := StripStart(s);
    var lead := s[..|s| - |t|];
    var u := t[|TakeWord(t)|..];
    assert SeparatorsOf(s) == [lead] + SeparatorsOf(u);
  }

  /** One step of `Words` on a string with a word. */
  lemma WordsStep(s: string)
    requires StripStart(s) != []
    ensures var t := StripStart(s);
      Words(s) == [TakeWord(t)] + Words(t[|TakeWord(t)|..])
  {
  }

  /** The leading run, the first word and the rest make up the string. */
  lemma LeadWordRest(s: string)
    requires StripStart(s) != []
    ensures var t := StripStart(s);
      var w := TakeWord(t);
      var u := t[|w|..];
      && s[..|s| - |t|] + (w + u) == s
      && AllSpace(s[..|s| - |t|])
      && (u == [] || IsSpace(u[0]))
  {
    var t := StripStart(s);
    var d := |s| - |t|;
    var w := TakeWord(t);
    var lead := s[..d];
    SliceSplit(s, d);
    SliceSplit(t, |w|);
    forall i | 0 <= i < d ensures IsSpace(lead[i]) {
      assert lead[i] == s[i];
    }
  }

  lemma SliceSplit(s: string, d: int)
    requires 0 <= d <= |s|
    ensures s[..d] + s[d..] == s
  {
  }

  /** A string that starts with whitespace has a non-empty leading run. */
  lemma LeadingRun(u: string)
    requires u != [] && IsSpace(u[0])
    ensures SeparatorsOf(u)[0] != []
  {
    var t := StripStart(u);
    assert |t| < |u|;
  }

  /** Prepending a whitespace run to the separators of further words. */
  lemma SeparationCons(lead: string, su: seq<string>, n: nat)
    requires AllSpace(lead) && IsSeparation(su, n)
    requires n > 0 ==> su[0] != []
    ensures IsSeparation([lead] + su, n + 1)
  {
    var seps := [lead] + su;
    assert forall i :: 0 < i < |seps| ==> seps[i] == su[i - 1];
  }

  /** Every string is its words interleaved with its whitespace runs: with
      `SplitAnySeparators`, `split()` yields exactly the maximal
      whitespace-free runs of the string, in order. */
  lemma {:induction false} SeparatorsOfSplit(s: string)
    ensures IsSeparation(SeparatorsOf(s), |Words(s)|)
    ensures Interleave(SeparatorsOf(s), Words(s)) == s
    decreases |s|
  {
    var t := StripStart(s);
    if t == [] {
      assert SeparatorsOf(s) == [s];
      WordsEmpty(s);
    } else {
      var w := TakeWord(t);
      var u := t[|w|..];
      var lead := s[..|s| - |t|];
      SeparatorsStep(s);
      WordsStep(s);
      LeadWordRest(s);
      var seps := SeparatorsOf(s);
      var ws := Words(s);
      SeparatorsOfSplit(u);
      var su := SeparatorsOf(u);
      var wu := Words(u);
      if wu != [] {
        assert u != [] by {
          if u == [] { WordsNil(); }
        }
        LeadingRun(u);
      }
      SeparationCons(lead, su, |wu|);
      InterleaveStep(seps, ws);
      assert seps[1..] == su && ws[1..] == wu;
      assert Interleave(seps, ws) == lead + (w + u);
    }
  }

  // ------------------------------------------------------ non-ASCII cleanup

  /** `re.sub(r'[^\x00-\x7F]+', ' ', s)` scanned left to right; `inRun` says
      that the character before `s` was non-ASCII, so a run is already open. */
  function CleanFrom(s: string, inRun: bool): (r: string)
    ensures AllAscii(r)
    ensures AllAscii(s) ==> r == s
    ensures |r| <= |s|
  {
    if s == [] then []
    else if IsAscii(s[0]) then
      var r := CleanFrom(s[1..], false);
      assert AllAscii(s) ==> AllAscii(s[1..]);
      [s[0]] + r
    else (if inRun then [] else [' ']) + CleanFrom(s[1..], true)
  }

  /** Every maximal run of non-ASCII characters becomes one space. */
  function CleanNonAscii(s: string): (r: string)
    ensures AllAscii(r)
    ensures AllAscii(s) ==> r == s
  {
    CleanFrom(s, false)
  }

  /** What position `i` of `s` contributes to the cleaned text: the character
      if it is ASCII, one space if it opens a run of non-ASCII characters,
      nothing if it continues one. */
  function Emit(s: string, i: nat): string
    requires i < |s|
  {
    if IsAscii(s[i]) then [s[i]]
    else if i > 0 && !IsAscii(s[i - 1]) then []
    else [' ']
  }

  function EmitFrom(s: string, i: nat): string
    requires i <= |s|
    decreases |s| - i
  {
    if i == |s| then [] else Emit(s, i) + EmitFrom(s, i + 1)
  }

  lemma {:induction false} CleanFromEmit(s: string, i: nat)
    requires i <= |s|
    ensures CleanFrom(s[i..], i > 0 && !IsAscii(s[i - 1])) == EmitFrom(s, i)
    decreases |s| - i
  {
    if i < |s| {
      CleanFromEmit(s, i + 1);
      assert s[i..][1..] == s[i + 1..];
    }
  }

  /** The cleanup, position by position: a reference definition of the regex. */
  lemma CleanNonAsciiByPosition(s: string)
    ensures CleanNonAscii(s) == EmitFrom(s, 0)
  {
    CleanFromEmit(s, 0);
    assert s[0..] == s;
  }
}
