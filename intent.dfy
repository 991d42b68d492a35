/** `detectGameFromText`: text normalisation and the three ordered groups of
    synonym patterns, with the play-verb and "game" fallbacks. */
module Intent {
  import opened Wrappers
  import Text

  datatype GameId = TicTacToeGame | TriviaGame | SudokuGame

  // ---------------------------------------------------------------------
  // Normalisation: lower case, [^a-z0-9\s] -> ' ', \s+ -> ' ', trim.

  /** `replace(/[^a-z0-9\s]/g, ' ')` on one character. */
  function KeepOrBlank(c: char): char {
    if Text.IsLowerAlnum(c) || Text.IsJsSpace(c) then c else ' '
  }

  function ReplaceOthers(s: string): (r: string)
    ensures |r| == |s| && forall i :: 0 <= i < |s| ==> r[i] == KeepOrBlank(s[i])
  {
    if s == [] then [] else [KeepOrBlank(s[0])] + ReplaceOthers(s[1..])
  }

  /** The end of the run of `\s` characters starting at `i`. */
  function SpaceRunEnd(s: string, i: nat): (e: nat)
    requires i <= |s|
    decreases |s| - i
    ensures i <= e <= |s| && (e == |s| || !Text.IsJsSpace(s[e]))
    ensures forall k :: i <= k < e ==> Text.IsJsSpace(s[k])
  {
    if i < |s| && Text.IsJsSpace(s[i]) then SpaceRunEnd(s, i + 1) else i
  }

  /** `replace(/\s+/g, ' ')`: every maximal run of `\s` becomes one space. */
  function Collapse(s: string): string
    decreases |s|
  {
    if s == [] then []
    else if Text.IsJsSpace(s[0]) then [' '] + Collapse(s[SpaceRunEnd(s, 0)..])
    else [s[0]] + Collapse(s[1..])
  }

  /** The normalised text of `detectGameFromText`. */
  function Clean(raw: string): string {
    Text.Trim(Collapse(ReplaceOthers(Text.ToLower(raw))))
  }

  /** Only `[a-z0-9 ]`, no leading, trailing or doubled space. */
  predicate IsCleanText(t: string) {
    && (forall i :: 0 <= i < |t| ==> Text.IsLowerAlnum(t[i]) || t[i] == ' ')
    && (|t| > 0 ==> t[0] != ' ' && t[|t| - 1] != ' ')
    && (forall i :: 0 <= i < |t| - 1 ==> !(t[i] == ' ' && t[i + 1] == ' '))
  }

  predicate LowerAlnumOrSpace(s: string) {
    forall i :: 0 <= i < |s| ==> Text.IsLowerAlnum(s[i]) || Text.IsJsSpace(s[i])
  }

  lemma {:induction false} CollapseShape(s: string)
    requires LowerAlnumOrSpace(s)
    decreases |s|
    ensures var r := Collapse(s);
      && (forall i :: 0 <= i < |r| ==> Text.IsLowerAlnum(r[i]) || r[i] == ' ')
      && (forall i :: 0 <= i < |r| - 1 ==> !(r[i] == ' ' && r[i + 1] == ' '))
      && (r == [] <==> s == [])
      && (s != [] ==> (r[0] == ' ' <==> Text.IsJsSpace(s[0])))
  {
    if s != [] {
      if Text.IsJsSpace(s[0]) {
        var e := SpaceRunEnd(s, 0);
        CollapseShape(s[e..]);
      } else {
        CollapseShape(s[1..]);
      }
    }
  }

  /** The normalised text holds only `[a-z0-9 ]`, with no leading, trailing
      or doubled space. */
  lemma CleanIsClean(raw: string)
    ensures IsCleanText(Clean(raw))
  {
    var low := Text.ToLower(raw);
    var rep := ReplaceOthers(low);
    assert LowerAlnumOrSpace(rep);
    var col := Collapse(rep);
    CollapseShape(rep);
    var i := Text.TrimStartIndex(col);
    var mid := col[i..];
    var j := Text.TrimEndIndex(mid);
    assert Clean(raw) == mid[..j];
  }

  // ---------------------------------------------------------------------
  // The regular expressions the detector uses, and what `test` means.

  /** The regular-expression forms the detector's patterns are built from:
      a literal, `\b`, `\s*` / `\s+`, concatenation and alternation. */
  datatype Re =
    | Eps
    | Lit(w: string)
    | Boundary
    | Spaces(atLeastOne: bool)
    | Cat(a: Re, b: Re)
    | Alt(a: Re, b: Re)

  function Size(r: Re): nat {
    match r
    case Cat(a, b) => 1 + Size(a) + Size(b)
    case Alt(a, b) => 1 + Size(a) + Size(b)
    case _ => 1
  }

  function SizeAll(rs: seq<Re>): nat {
    if rs == [] then 0 else Size(rs[0]) + SizeAll(rs[1..])
  }

  lemma {:induction false} SizeAllAppend(a: seq<Re>, b: seq<Re>)
    ensures SizeAll(a + b) == SizeAll(a) + SizeAll(b)
  {
    if a == [] {
      assert a + b == b;
    } else {
      assert (a + b)[1..] == a[1..] + b;
      SizeAllAppend(a[1..], b);
    }
  }

  predicate WordBefore(t: string, i: int) requires 0 <= i <= |t| {
    i > 0 && Text.IsWordChar(t[i - 1])
  }

  predicate WordAfter(t: string, i: int) requires 0 <= i <= |t| {
    i < |t| && Text.IsWordChar(t[i])
  }

  /** `\b` at position `i`. */
  predicate IsBoundary(t: string, i: int) requires 0 <= i <= |t| {
    WordBefore(t, i) != WordAfter(t, i)
  }

  /** The list `rs` of expressions, in sequence, matches some prefix of
      `t[i..]`: the backtracking search of the regular-expression engine. */
  predicate MatchFrom(rs: seq<Re>, t: string, i: int)
    requires 0 <= i <= |t|
    decreases SizeAll(rs), |t| - i
  {
    if rs == [] then true
    else
      var rest := rs[1..];
      assert rs == [rs[0]] + rest;
      SizeAllAppend([rs[0]], rest);
      match rs[0]
      case Eps => MatchFrom(rest, t, i)
      case Lit(w) => Text.OccursAt(t, w, i) && MatchFrom(rest, t, i + |w|)
      case Boundary => IsBoundary(t, i) && MatchFrom(rest, t, i)
      case Spaces(one) =>
        || (!one && MatchFrom(rest, t, i))
        || (i < |t| && Text.IsJsSpace(t[i]) &&
            (SizeAllAppend([Spaces(false)], rest); MatchFrom([Spaces(false)] + rest, t, i + 1)))
      case Cat(a, b) =>
        SizeAllAppend([a, b], rest);
        assert [a, b] == [a] + [b];
        SizeAllAppend([a], [b]);
        MatchFrom([a, b] + rest, t, i)
      case Alt(a, b) =>
        SizeAllAppend([a], rest);
        SizeAllAppend([b], rest);
        MatchFrom([a] + rest, t, i) || MatchFrom([b] + rest, t, i)
  }


  /** `re.test(t)`: a match starts somewhere in `t`. */
  predicate Test(re: Re, t: string) {
    exists i :: 0 <= i <= |t| && MatchFrom([re], t, i)
  }

  /** `patterns.some(rx => rx.test(t))`. */
  predicate AnyTest(patterns: seq<Re>, t: string) {
    exists k :: 0 <= k < |patterns| && Test(patterns[k], t)
  }

  // Building blocks for the patterns.

  function Opt(r: Re): Re { Alt(r, Eps) }

  function CatAll(rs: seq<Re>): Re {
    if rs == [] then Eps else if |rs| == 1 then rs[0] else Cat(rs[0], CatAll(rs[1..]))
  }

  function AltAll(rs: seq<Re>): Re
    requires rs != []
  {
    if |rs| == 1 then rs[0] else Alt(rs[0], AltAll(rs[1..]))
  }

  /** The words of a phrase joined by `\s*` (or by `\s+` when `tight` is false). */
  function Joined(ws: seq<string>, tight: bool): Re
    requires ws != []
  {
    if |ws| == 1 then Lit(ws[0]) else Cat(Lit(ws[0]), Cat(Spaces(!tight), Joined(ws[1..], tight)))
  }

  /** `\bw1\s*w2\s*...\b`. */
  function Phrase(ws: seq<string>): Re
    requires ws != []
  {
    CatAll([Boundary, Joined(ws, true), Boundary])
  }

  /** The tic-tac-toe synonyms, in source order. */
  function TicTacPatterns(): seq<Re> {
    [Phrase(["tic", "tac", "toe"]), Phrase(["tictactoe"]), Phrase(["xo"]),
     Phrase(["noughts", "and", "crosses"]), Phrase(["x", "and", "o"]), Phrase(["x", "o"]),
     Phrase(["tic", "tac"])]
  }

  /** The trivia synonyms, in source order. */
  function TriviaPatterns(): seq<Re> {
    [Phrase(["trivia"]), Phrase(["quiz"]), Phrase(["question", "game"]), Phrase(["questions"]),
     Phrase(["trivial", "pursuit"]), Phrase(["brain", "teaser"]), Phrase(["knowledge", "test"])]
  }

  /** The sudoku synonyms, in source order. */
  function SudokuPatterns(): seq<Re> {
    [Phrase(["sudoku"]), Phrase(["number", "puzzle"]), Phrase(["number", "game"]),
     Phrase(["9", "by", "9"]), Phrase(["numbers", "grid"]), Phrase(["puzzle", "grid"]),
     Phrase(["suduko"]), Phrase(["sodoku"])]
  }

  function Words(ws: seq<string>): Re
    requires ws != []
  {
    AltAll(seq(|ws|, k requires 0 <= k < |ws| => Lit(ws[k])))
  }

  /** The `hasPlayVerb` expression, alternative by alternative. */
  function PlayVerbPattern(): Re {
    AltAll([
      CatAll([Boundary,
              Opt(AltAll([Joined(["let", "us"], true), Lit("lets"), Lit("let's")])),
              Spaces(false),
              Words(["play", "start", "launch", "open"]),
              Boundary]),
      CatAll([Boundary,
              AltAll([Joined(["can", "we"], false), Joined(["should", "we"], false),
                      Joined(["want", "to"], false), Joined(["time", "to"], false),
                      Joined(["time", "for"], false)]),
              Spaces(true),
              Words(["play", "start"]),
              Boundary]),
      CatAll([Boundary, Lit("i"), Spaces(true),
              Words(["want", "wanna"]), Spaces(true),
              Opt(Cat(Lit("to"), Spaces(true))),
              Words(["play", "start"]),
              Boundary])
    ])
  }

  /** `/\bgame\b/`. */
  function GameWordPattern(): Re { Phrase(["game"]) }

  /** The three groups tried in order on one text. */
  function GroupOf(t: string): (r: Option<GameId>)
    ensures r == Some(TicTacToeGame) <==> AnyTest(TicTacPatterns(), t)
    ensures r == Some(TriviaGame) <==> !AnyTest(TicTacPatterns(), t) && AnyTest(TriviaPatterns(), t)
    ensures r == Some(SudokuGame) <==>
      !AnyTest(TicTacPatterns(), t) && !AnyTest(TriviaPatterns(), t) && AnyTest(SudokuPatterns(), t)
    ensures r == None <==>
      !AnyTest(TicTacPatterns(), t) && !AnyTest(TriviaPatterns(), t) && !AnyTest(SudokuPatterns(), t)
  {
    if AnyTest(TicTacPatterns(), t) then Some(TicTacToeGame)
    else if AnyTest(TriviaPatterns(), t) then Some(TriviaGame)
    else if AnyTest(SudokuPatterns(), t) then Some(SudokuGame)
    else None
  }

  // ---------------------------------------------------------------------
  // `cleaned.match(/(?:play|open|start|launch|begin)\s+([a-z0-9\s]+)/)`

  const CaptureVerbs: seq<string> := ["play", "open", "start", "launch", "begin"]

  /** A character of the class `[a-z0-9\s]`. */
  predicate InCaptureClass(c: char) { Text.IsLowerAlnum(c) || Text.IsJsSpace(c) }

  function ClassRunEnd(s: string, i: nat): (e: nat)
    requires i <= |s|
    decreases |s| - i
    ensures i <= e <= |s| && (e == |s| || !InCaptureClass(s[e]))
    ensures forall k :: i <= k < e ==> InCaptureClass(s[k])
  {
    if i < |s| && InCaptureClass(s[i]) then ClassRunEnd(s, i + 1) else i
  }

  /** The capture group when the expression matches at `p` with verb `v`:
      `\s+` takes the whole run of spaces and the group the following run
      of class characters; if no class character follows, `\s+` gives up its
      last space to the group, which needs a run of two. */
  function CaptureWith(t: string, p: nat, v: string): Option<string>
    requires p <= |t|
  {
    var k := p + |v|;
    if !Text.OccursAt(t, v, p) || k >= |t| || !Text.IsJsSpace(t[k]) then None
    else
      var e := SpaceRunEnd(t, k);
      if e < |t| && InCaptureClass(t[e]) then Some(t[e..ClassRunEnd(t, e)])
      else if e - k >= 2 then Some(t[e - 1..e])
      else None
  }

  /** The alternatives of the verb group, tried in order at `p`. */
  function CaptureAt(t: string, p: nat, j: nat): Option<string>
    requires p <= |t| && j <= |CaptureVerbs|
    decreases |CaptureVerbs| - j
  {
    if j == |CaptureVerbs| then None
    else match CaptureWith(t, p, CaptureVerbs[j])
      case Some(g) => Some(g)
      case None => CaptureAt(t, p, j + 1)
  }

  /** The leftmost match from position `p` on, and its capture group. */
  function FirstCapture(t: string, p: nat): Option<string>
    requires p <= |t|
    decreases |t| - p
  {
    match CaptureAt(t, p, 0)
    case Some(g) => Some(g)
    case None => if p == |t| then None else FirstCapture(t, p + 1)
  }

  /** `(afterPlay?.[1] || '').trim()`. */
  function PlayCandidate(t: string): string {
    match FirstCapture(t, 0)
    case Some(g) => Text.Trim(g)
    case None => ""
  }

  // ---------------------------------------------------------------------
  // A match inside a piece of text whose neighbours are not word characters
  // is a match in the whole text.

  /** `v` sits in `t` at `off`, and the characters around it are not word
      characters. */
  predicate Embedded(v: string, t: string, off: int) {
    && 0 <= off && off + |v| <= |t| && t[off..off + |v|] == v
    && (off == 0 || !Text.IsWordChar(t[off - 1]))
    && (off + |v| == |t| || !Text.IsWordChar(t[off + |v|]))
  }

  lemma LitTransfers(w: string, v: string, t: string, off: int, i: int)
    requires Embedded(v, t, off) && 0 <= i <= |v| && Text.OccursAt(v, w, i)
    ensures Text.OccursAt(t, w, off + i)
  {
    var a := off + i;
    forall k | a <= k < a + |w|
      ensures t[k] == w[k - a]
    {
      assert t[k] == v[k - off];
      assert v[k - off] == v[i..i + |w|][k - a];
    }
  }

  lemma BoundaryTransfers(v: string, t: string, off: int, i: int)
    requires Embedded(v, t, off) && 0 <= i <= |v|
    ensures IsBoundary(t, off + i) == IsBoundary(v, i)
  {
    assert WordBefore(t, off + i) == WordBefore(v, i);
    assert WordAfter(t, off + i) == WordAfter(v, i);
  }

  lemma {:induction false} MatchTransfers(rs: seq<Re>, v: string, t: string, off: int, i: int)
    requires Embedded(v, t, off) && 0 <= i <= |v|
    requires MatchFrom(rs, v, i)
    ensures MatchFrom(rs, t, off + i)
    decreases SizeAll(rs), |v| - i
  {
    if rs != [] {
      var rest := rs[1..];
      assert rs == [rs[0]] + rest;
      SizeAllAppend([rs[0]], rest);
      match rs[0]
      case Eps =>
        MatchTransfers(rest, v, t, off, i);
      case Lit(w) =>
        LitTransfers(w, v, t, off, i);
        MatchTransfers(rest, v, t, off, i + |w|);
      case Boundary =>
        BoundaryTransfers(v, t, off, i);
        MatchTransfers(rest, v, t, off, i);
      case Spaces(one) =>
        if !one && MatchFrom(rest, v, i) {
          MatchTransfers(rest, v, t, off, i);
        } else {
          assert t[off + i] == v[i];
          SizeAllAppend([Spaces(false)], rest);
          MatchTransfers([Spaces(false)] + rest, v, t, off, i + 1);
        }
      case Cat(a, b) =>
        SizeAllAppend([a, b], rest);
        assert [a, b] == [a] + [b];
        SizeAllAppend([a], [b]);
        MatchTransfers([a, b] + rest, v, t, off, i);
      case Alt(a, b) =>
        SizeAllAppend([a], rest);
        SizeAllAppend([b], rest);
        if MatchFrom([a] + rest, v, i) {
          MatchTransfers([a] + rest, v, t, off, i);
        } else {
          MatchTransfers([b] + rest, v, t, off, i);
        }
    }
  }

  lemma TestTransfers(re: Re, v: string, t: string, off: int)
    requires Embedded(v, t, off) && Test(re, v)
    ensures Test(re, t)
  {
    var i :| 0 <= i <= |v| && MatchFrom([re], v, i);
    MatchTransfers([re], v, t, off, i);
  }

  lemma AnyTestTransfers(patterns: seq<Re>, v: string, t: string, off: int)
    requires Embedded(v, t, off) && AnyTest(patterns, v)
    ensures AnyTest(patterns, t)
  {
    var k :| 0 <= k < |patterns| && Test(patterns[k], v);
    TestTransfers(patterns[k], v, t, off);
  }

  lemma GroupTransfers(v: string, t: string, off: int)
    requires Embedded(v, t, off)
    ensures GroupOf(t) == None ==> GroupOf(v) == None
  {
    if AnyTest(TicTacPatterns(), v) { AnyTestTransfers(TicTacPatterns(), v, t, off); }
    if AnyTest(TriviaPatterns(), v) { AnyTestTransfers(TriviaPatterns(), v, t, off); }
    if AnyTest(SudokuPatterns(), v) { AnyTestTransfers(SudokuPatterns(), v, t, off); }
  }

  predicate AllInCaptureClass(t: string) {
    forall i :: 0 <= i < |t| ==> InCaptureClass(t[i])
  }

  /** On normalised text the capture group runs to the end of the text and
      follows a space. */
  lemma CaptureWithShape(t: string, p: nat, v: string) returns (e: nat)
    requires AllInCaptureClass(t) && p <= |t| && CaptureWith(t, p, v).Some?
    ensures 0 < e <= |t| && Text.IsJsSpace(t[e - 1]) && CaptureWith(t, p, v).value == t[e..]
  {
    var k := p + |v|;
    var e0 := SpaceRunEnd(t, k);
    if e0 < |t| {
      e := e0;
      assert ClassRunEnd(t, e) == |t| by { ClassRunReachesEnd(t, e); }
    } else {
      e := e0 - 1;
    }
  }

  lemma {:induction false} ClassRunReachesEnd(t: string, i: nat)
    requires AllInCaptureClass(t) && i <= |t|
    decreases |t| - i
    ensures ClassRunEnd(t, i) == |t|
  {
    if i < |t| {
      ClassRunReachesEnd(t, i + 1);
    }
  }

  lemma {:induction false} CaptureAtShape(t: string, p: nat, j: nat) returns (e: nat)
    requires AllInCaptureClass(t) && p <= |t| && j <= |CaptureVerbs| && CaptureAt(t, p, j).Some?
    decreases |CaptureVerbs| - j
    ensures 0 < e <= |t| && Text.IsJsSpace(t[e - 1]) && CaptureAt(t, p, j).value == t[e..]
  {
    if CaptureWith(t, p, CaptureVerbs[j]).Some? {
      e := CaptureWithShape(t, p, CaptureVerbs[j]);
    } else {
      e := CaptureAtShape(t, p, j + 1);
    }
  }

  lemma {:induction false} FirstCaptureShape(t: string, p: nat) returns (e: nat)
    requires AllInCaptureClass(t) && p <= |t| && FirstCapture(t, p).Some?
    decreases |t| - p
    ensures 0 < e <= |t| && Text.IsJsSpace(t[e - 1]) && FirstCapture(t, p).value == t[e..]
  {
    if CaptureAt(t, p, 0).Some? {
      e := CaptureAtShape(t, p, 0);
    } else {
      e := FirstCaptureShape(t, p + 1);
    }
  }

  /** A slice of `t` with `\s` characters (or the ends of `t`) on both
      sides sits in `t` between non-word characters. */
  lemma SliceEmbedded(t: string, a: nat, b: nat)
    requires a <= b <= |t|
    requires a == 0 || Text.IsJsSpace(t[a - 1])
    requires b == |t| || Text.IsJsSpace(t[b])
    ensures Embedded(t[a..b], t, a)
  {
  }

  /** A slice of the tail `t[e..]` framed by `\s` characters (or its
      ends) is a slice of `t` framed the same way. */
  lemma TailSlice(t: string, e: nat, i: nat, j: nat)
    requires 0 < e <= |t| && Text.IsJsSpace(t[e - 1])
    requires i <= j <= |t| - e
    requires forall k :: 0 <= k < i ==> Text.IsJsSpace(t[e..][k])
    requires j < |t| - e ==> Text.IsJsSpace(t[e..][j])
    ensures t[e..][i..j] == t[e + i..e + j]
    ensures Text.IsJsSpace(t[e + i - 1])
    ensures e + j < |t| ==> Text.IsJsSpace(t[e + j])
  {
    if i > 0 {
      assert t[e + i - 1] == t[e..][i - 1];
    }
    if e + j < |t| {
      assert t[e + j] == t[e..][j];
    }
  }

  /** The trimmed tail of `t` after a space sits in `t` between non-word
      characters. */
  lemma TrimmedTailEmbedded(t: string, e: nat) returns (off: int)
    requires 0 < e <= |t| && Text.IsJsSpace(t[e - 1])
    ensures Embedded(Text.Trim(t[e..]), t, off)
  {
    var g := t[e..];
    var i, j := Text.TrimIsSlice(g);
    off := e + i;
    TailSlice(t, e, i, j);
    SliceEmbedded(t, off, e + j);
  }

  lemma CandidateEmbedded(t: string) returns (off: int)
    requires IsCleanText(t) && PlayCandidate(t) != ""
    ensures Embedded(PlayCandidate(t), t, off)
  {
    assert AllInCaptureClass(t);
    var e := FirstCaptureShape(t, 0);
    off := TrimmedTailEmbedded(t, e);
  }

  // ---------------------------------------------------------------------

  /** `detectGameFromText(raw)`, branch for branch. */
  function DetectGame(raw: string): Option<GameId> {
    var cleaned := Clean(raw);
    var hasPlayVerb := Test(PlayVerbPattern(), cleaned);
    var direct := GroupOf(cleaned);
    if direct.Some? then direct
    else
      var candidate := PlayCandidate(cleaned);
      if hasPlayVerb && candidate != "" && GroupOf(candidate).Some? then GroupOf(candidate)
      else if Test(GameWordPattern(), cleaned) && GroupOf(cleaned).Some? then GroupOf(cleaned)
      else None
  }

  /** Both fallbacks re-run the three groups on text the first pass has
      already searched (the tail after a play verb sits between spaces), so
      the detector's answer is the first group matching the normalised text:
      tic-tac-toe over trivia over sudoku, and no game when none matches. */
  lemma DetectGameMeaning(raw: string)
    ensures DetectGame(raw) == GroupOf(Clean(raw))
    ensures var t := Clean(raw);
      && (DetectGame(raw) == Some(TicTacToeGame) <==> AnyTest(TicTacPatterns(), t))
      && (DetectGame(raw) == Some(TriviaGame) <==>
            !AnyTest(TicTacPatterns(), t) && AnyTest(TriviaPatterns(), t))
      && (DetectGame(raw) == Some(SudokuGame) <==>
            !AnyTest(TicTacPatterns(), t) && !AnyTest(TriviaPatterns(), t) && AnyTest(SudokuPatterns(), t))
      && (DetectGame(raw) == None <==>
            !AnyTest(TicTacPatterns(), t) && !AnyTest(TriviaPatterns(), t) && !AnyTest(SudokuPatterns(), t))
  {
    var t := Clean(raw);
    CleanIsClean(raw);
    if GroupOf(t).None? {
      var c := PlayCandidate(t);
      if c != "" {
        var off := CandidateEmbedded(t);
        GroupTransfers(c, t, off);
      }
    }
  }
}
