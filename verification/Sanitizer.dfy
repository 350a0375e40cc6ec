/** The last three stages of `clean` in `src/narrator/pipeline/sanitize.py`: collapsing repeats,
    breaking long tokens, folding whitespace. */
module Sanitizer {
  import opened Text

  const LONG_TOKEN: nat := 40

  // --- _REPEAT_RE.sub ---------------------------------------------------------------

  /** The length of the run of equal characters a text starts with. */
  function Run(s: string): (n: nat)
    requires s != ""
    ensures 1 <= n <= |s|
    ensures forall i | 0 <= i < n :: s[i] == s[0]
    ensures n < |s| ==> s[n] != s[0]
  {
    if |s| > 1 && s[1] == s[0] then 1 + Run(s[1..]) else 1
  }

  /** Every maximal run of four or more equal characters becomes three of them. */
  function Collapse(s: string): string
    decreases |s|
  {
    if s == "" then "" else s[..if Run(s) < 3 then Run(s) else 3] + Collapse(s[Run(s)..])
  }

  // --- _break_long_tokens --------------------------------------------------------------

  function BreakToken(token: string): seq<string> {
    if |token| <= LONG_TOKEN then [token] else [token[..LONG_TOKEN]] + BreakToken(token[LONG_TOKEN..])
  }

  function BreakTokens(tokens: seq<string>): seq<string> {
    if tokens == [] then [] else BreakTokens(tokens[..|tokens| - 1]) + BreakToken(tokens[|tokens| - 1])
  }

  function BreakLongTokens(text: string): string {
    Join(" ", BreakTokens(Split(' ', text)))
  }

  method BreakText(text: string) returns (r: string)
    ensures r == BreakLongTokens(text)
  {
    var parts := [];
    var tokens := Split(' ', text);
    hide BreakToken, Split;
    for k := 0 to |tokens|
      invariant parts == BreakTokens(tokens[..k])
    {
      assert tokens[..k + 1][..k] == tokens[..k];
      var pieces := SliceToken(tokens[k]);
      parts := parts + pieces;
    }
    assert tokens[..|tokens|] == tokens;
    r := Join(" ", parts);
  }

  /** The slices of one token: the source's range over the token in steps of the limit. */
  method SliceToken(token: string) returns (pieces: seq<string>)
    ensures pieces == BreakToken(token)
  {
    if |token| <= LONG_TOKEN {
      return [token];
    }
    pieces := [];
    var i := 0;
    while i < |token|
      invariant i <= |token|
      invariant i < |token| ==> pieces + BreakToken(token[i..]) == BreakToken(token)
      invariant i == |token| ==> pieces == BreakToken(token)
    {
      var end := if i + LONG_TOKEN < |token| then i + LONG_TOKEN else |token|;
      if end < |token| {
        assert token[i..][..LONG_TOKEN] == token[i..end] && token[i..][LONG_TOKEN..] == token[end..];
        AppendAssoc(pieces, [token[i..end]], BreakToken(token[end..]));
      } else {
        assert token[i..] == token[i..end];
      }
      pieces := pieces + [token[i..end]];
      i := end;
    }
  }

  // --- _WS_RE.sub, strip ------------------------------------------------------------------

  /** Every maximal run of whitespace becomes one blank. */
  function Fold(ws: Spaces, s: string): string
    decreases |s|
  {
    if s == "" then ""
    else if s[0] in ws then " " + Fold(ws, s[SkipSpaces(ws, s, 1)..])
    else [s[0]] + Fold(ws, s[1..])
  }

  /** The three stages. */
  function Tidy(ws: Spaces, text: string): string {
    Strip(ws, Fold(ws, BreakLongTokens(Collapse(text))))
  }

  // --- the normal form -----------------------------------------------------------------------

  predicate FourAt(s: string, i: int) {
    0 <= i < |s| - 3 && s[i] == s[i + 1] == s[i + 2] == s[i + 3]
  }

  ghost predicate NoFour(s: string) {
    forall i :: !FourAt(s, i)
  }

  /** The same, for runs of anything but blanks. */
  ghost predicate NoFourInk(s: string) {
    forall i :: FourAt(s, i) ==> s[i] == ' '
  }

  /** No run of four equal characters, only single inner blanks, no outer space, no token over the limit. */
  ghost predicate Normal(ws: Spaces, s: string) {
    NoFour(s) && Folded(ws, s) && Trimmed(ws, s) && ShortWords(LONG_TOKEN, s)
  }

  // --- collapsing --------------------------------------------------------------------------------

  lemma {:induction false} CollapseNoFour(s: string)
    ensures NoFour(Collapse(s))
    ensures s != "" ==> Collapse(s) != "" && Collapse(s)[0] == s[0]
    decreases |s|
  {
    if s != "" {
      var n := Run(s);
      var head, tail := s[..if n < 3 then n else 3], Collapse(s[n..]);
      CollapseNoFour(s[n..]);
      forall i ensures !FourAt(head + tail, i) {
        if i >= |head| {
          assert !FourAt(tail, i - |head|);
        } else if 0 <= i && tail != "" {
          assert (head + tail)[|head|] != s[0];
        }
      }
    }
  }

  lemma {:induction false} CollapseKeeps(s: string)
    requires NoFour(s)
    ensures Collapse(s) == s
    decreases |s|
  {
    if s != "" {
      var n := Run(s);
      assert !FourAt(s, 0);
      forall i ensures !FourAt(s[n..], i) {
        assert !FourAt(s, n + i);
      }
      CollapseKeeps(s[n..]);
    }
  }

  // --- breaking ----------------------------------------------------------------------------------

  lemma {:induction false} InkSlice(s: string, a: nat, b: nat)
    requires a <= b <= |s| && NoFourInk(s)
    ensures NoFourInk(s[a..b])
  {
    forall i ensures FourAt(s[a..b], i) ==> s[a..b][i] == ' ' {
      if FourAt(s[a..b], i) {
        assert FourAt(s, a + i);
      }
    }
  }

  lemma {:induction false} InkJoin(a: string, b: string)
    requires NoFourInk(a) && NoFourInk(b)
    ensures NoFourInk(a + " " + b)
  {
    var s := a + " " + b;
    forall i ensures FourAt(s, i) ==> s[i] == ' ' {
      if FourAt(s, i) {
        if i + 3 < |a| {
          assert FourAt(a, i);
        } else if i > |a| {
          assert FourAt(b, i - |a| - 1);
        } else {
          assert s[|a|] == ' ';
        }
      }
    }
  }

  /** A piece: within the limit, and without a run of four. */
  ghost predicate GoodPiece(piece: string) {
    |piece| <= LONG_TOKEN && NoFourInk(piece)
  }

  lemma {:induction false} BreakTokenGood(token: string)
    requires NoFourInk(token)
    ensures BreakToken(token) != [] && forall piece | piece in BreakToken(token) :: GoodPiece(piece)
  {
    hide NoFourInk;
    if |token| > LONG_TOKEN {
      InkSlice(token, 0, LONG_TOKEN);
      InkSlice(token, LONG_TOKEN, |token|);
      assert token[0..LONG_TOKEN] == token[..LONG_TOKEN] && token[LONG_TOKEN..|token|] == token[LONG_TOKEN..];
      BreakTokenGood(token[LONG_TOKEN..]);
    }
  }

  lemma {:induction false} BreakTokensGood(tokens: seq<string>)
    requires tokens != [] && forall token | token in tokens :: NoFourInk(token)
    ensures BreakTokens(tokens) != [] && forall piece | piece in BreakTokens(tokens) :: GoodPiece(piece)
    decreases |tokens|
  {
    hide NoFourInk, GoodPiece, BreakToken;
    var front, last := tokens[..|tokens| - 1], tokens[|tokens| - 1];
    assert last in tokens && forall token | token in front :: token in tokens;
    BreakTokenGood(last);
    if front != [] {
      BreakTokensGood(front);
    }
  }

  lemma {:induction false} JoinGood(pieces: seq<string>)
    requires pieces != [] && forall piece | piece in pieces :: GoodPiece(piece)
    ensures NoFourInk(Join(" ", pieces)) && ShortWords(LONG_TOKEN, Join(" ", pieces))
  {
    hide NoFourInk, ShortWords;
    var first := pieces[0];
    assert GoodPiece(first);
    if |pieces| == 1 {
      ShortIsShort(first);
    } else {
      JoinGood(pieces[1..]);
      InkJoin(first, Join(" ", pieces[1..]));
      ShortJoin(first, Join(" ", pieces[1..]));
    }
  }

  lemma {:induction false} ShortIsShort(s: string)
    requires |s| <= LONG_TOKEN
    ensures ShortWords(LONG_TOKEN, s)
  {
  }

  lemma {:induction false} ShortJoin(a: string, b: string)
    requires |a| <= LONG_TOKEN && ShortWords(LONG_TOKEN, b)
    ensures ShortWords(LONG_TOKEN, a + " " + b)
  {
    var s := a + " " + b;
    forall i, j | 0 <= i <= j <= |s| ensures j - i > LONG_TOKEN ==> ' ' in s[i..j] {
      if j - i > LONG_TOKEN {
        if i > |a| {
          var x, y := i - |a| - 1, j - |a| - 1;
          assert ' ' in b[x..y];
          var k :| x <= k < y && b[k] == ' ';
          assert s[i..j][k - x] == ' ';
        } else {
          assert s[i..j][|a| - i] == ' ';
        }
      }
    }
  }

  lemma {:induction false} WordsInk(words: seq<string>)
    requires words != [] && NoFourInk(Join(" ", words))
    ensures forall word | word in words :: NoFourInk(word)
  {
    hide NoFourInk;
    if |words| > 1 {
      var rest := Join(" ", words[1..]);
      var s := words[0] + " " + rest;
      InkSlice(s, 0, |words[0]|);
      InkSlice(s, |words[0]| + 1, |s|);
      assert s[0..|words[0]|] == words[0] && s[|words[0]| + 1..|s|] == rest;
      WordsInk(words[1..]);
    }
  }

  lemma {:induction false} BreakGood(text: string)
    requires NoFourInk(text)
    ensures NoFourInk(BreakLongTokens(text)) && ShortWords(LONG_TOKEN, BreakLongTokens(text))
  {
    hide NoFourInk, ShortWords, Split, BreakTokens;
    JoinSplit(' ', text);
    WordsInk(Split(' ', text));
    BreakTokensGood(Split(' ', text));
    JoinGood(BreakTokens(Split(' ', text)));
  }

  lemma {:induction false} BreakTokensKeep(tokens: seq<string>)
    requires forall token | token in tokens :: |token| <= LONG_TOKEN
    ensures BreakTokens(tokens) == tokens
    decreases |tokens|
  {
    if tokens != [] {
      var front, last := tokens[..|tokens| - 1], tokens[|tokens| - 1];
      assert last in tokens && forall token | token in front :: token in tokens;
      BreakTokensKeep(front);
      assert front + [last] == tokens;
    }
  }

  lemma {:induction false} BreakKeeps(text: string)
    requires ShortWords(LONG_TOKEN, text)
    ensures BreakLongTokens(text) == text
  {
    hide Split, BreakTokens, ShortWords;
    ShortWordsSplit(LONG_TOKEN, text);
    BreakTokensKeep(Split(' ', text));
    JoinSplit(' ', text);
  }

  // --- folding -----------------------------------------------------------------------------------

  lemma {:induction false} FoldFolded(ws: Spaces, s: string)
    requires ' ' in ws
    ensures Folded(ws, Fold(ws, s))
    ensures s != "" ==> Fold(ws, s) != "" && (Fold(ws, s)[0] in ws <==> s[0] in ws)
    decreases |s|
  {
    if s != "" {
      var rest := if s[0] in ws then s[SkipSpaces(ws, s, 1)..] else s[1..];
      FoldFolded(ws, rest);
      var folded := Fold(ws, rest);
      assert Fold(ws, s)[1..] == folded;
      assert forall i | 0 < i < |Fold(ws, s)| :: Fold(ws, s)[i] == folded[i - 1];
    }
  }

  /** What is folded from some place on is the fold of what remains there. */
  lemma {:induction false} FoldSuffix(ws: Spaces, s: string, i: nat) returns (j: nat)
    requires i <= |Fold(ws, s)|
    ensures j <= |s| && Fold(ws, s)[i..] == Fold(ws, s[j..])
    decreases |s|
  {
    if i == 0 {
      j := 0;
      assert s[0..] == s && Fold(ws, s)[0..] == Fold(ws, s);
    } else {
      var k := if s[0] in ws then SkipSpaces(ws, s, 1) else 1;
      var rest := s[k..];
      assert Fold(ws, s)[1..] == Fold(ws, rest);
      var j' := FoldSuffix(ws, rest, i - 1);
      j := k + j';
      assert Fold(ws, s)[i..] == Fold(ws, s)[1..][i - 1..];
      assert rest[j'..] == s[j..];
    }
  }

  /** A stretch of visible characters at the start of a fold stood at the start of the text. */
  lemma {:induction false} FoldPrefix(ws: Spaces, s: string, k: nat)
    requires ' ' in ws && k <= |Fold(ws, s)| && forall i | 0 <= i < k :: Fold(ws, s)[i] !in ws
    ensures k <= |s| && forall i | 0 <= i < k :: s[i] == Fold(ws, s)[i]
    decreases k
  {
    if k > 0 {
      assert Fold(ws, s)[0] !in ws;
      assert Fold(ws, s) == [s[0]] + Fold(ws, s[1..]);
      assert forall i | 0 <= i < k - 1 :: Fold(ws, s[1..])[i] == Fold(ws, s)[i + 1];
      FoldPrefix(ws, s[1..], k - 1);
      assert forall i | 0 < i < k :: s[i] == s[1..][i - 1];
    }
  }

  /** A stretch of visible characters inside a fold stood together in the text. */
  lemma {:induction false} FoldStretch(ws: Spaces, s: string, a: nat, b: nat) returns (j: nat)
    requires ' ' in ws && a <= b <= |Fold(ws, s)| && forall i | a <= i < b :: Fold(ws, s)[i] !in ws
    ensures j + (b - a) <= |s| && s[j..j + (b - a)] == Fold(ws, s)[a..b]
  {
    hide Fold;
    j := FoldSuffix(ws, s, a);
    assert forall i | 0 <= i < b - a :: Fold(ws, s)[a..][i] == Fold(ws, s)[a + i];
    FoldPrefix(ws, s[j..], b - a);
    assert s[j..][..b - a] == Fold(ws, s)[a..][..b - a];
    assert s[j..][..b - a] == s[j..j + (b - a)] && Fold(ws, s)[a..][..b - a] == Fold(ws, s)[a..b];
  }

  lemma {:induction false} FoldFour(ws: Spaces, s: string, i: nat) returns (j: nat)
    requires ' ' in ws && FourAt(Fold(ws, s), i) && Fold(ws, s)[i] !in ws
    ensures FourAt(s, j) && s[j] == Fold(ws, s)[i]
  {
    hide Fold;
    var t := Fold(ws, s);
    j := FoldStretch(ws, s, i, i + 4);
    var four := t[i..i + 4];
    assert four[0] == s[j] && four[1] == s[j + 1] && four[2] == s[j + 2] && four[3] == s[j + 3];
    assert four[0] == t[i] && four[1] == t[i + 1] && four[2] == t[i + 2] && four[3] == t[i + 3];
  }

  lemma {:induction false} FoldGood(ws: Spaces, s: string)
    requires ' ' in ws && NoFourInk(s) && ShortWords(LONG_TOKEN, s)
    ensures NoFour(Fold(ws, s)) && ShortWords(LONG_TOKEN, Fold(ws, s))
  {
    hide Fold;
    FoldFolded(ws, s);
    var t := Fold(ws, s);
    forall i ensures !FourAt(t, i) {
      if FourAt(t, i) && t[i] !in ws {
        var j := FoldFour(ws, s, i);
      }
    }
    forall a, b | 0 <= a <= b <= |t| ensures b - a > LONG_TOKEN ==> ' ' in t[a..b] {
      if b - a > LONG_TOKEN && ' ' !in t[a..b] {
        assert forall i | a <= i < b :: t[i] == t[a..b][i - a];
        var j := FoldStretch(ws, s, a, b);
      }
    }
  }

  lemma {:induction false} FoldKeeps(ws: Spaces, s: string)
    requires ' ' in ws && Folded(ws, s)
    ensures Fold(ws, s) == s
    decreases |s|
  {
    if s != "" {
      FoldKeeps(ws, s[1..]);
      if s[0] in ws {
        assert SkipSpaces(ws, s, 1) == 1;
      }
      assert s == [s[0]] + s[1..];
    }
  }

  // --- the theorems --------------------------------------------------------------------------------

  lemma {:induction false} NormalSlice(ws: Spaces, s: string, a: nat, b: nat)
    requires a <= b <= |s| && NoFour(s) && Folded(ws, s) && ShortWords(LONG_TOKEN, s)
    ensures NoFour(s[a..b]) && Folded(ws, s[a..b]) && ShortWords(LONG_TOKEN, s[a..b])
  {
    ShortWordsSlice(LONG_TOKEN, s, a, b);
    forall i ensures !FourAt(s[a..b], i) {
      assert !FourAt(s, a + i);
    }
  }

  /** Every text is brought into the normal form. */
  lemma {:induction false} TidyIsNormal(ws: Spaces, text: string)
    requires ' ' in ws
    ensures Normal(ws, Tidy(ws, text))
  {
    hide NoFour, NoFourInk, Folded, ShortWords, Fold, BreakLongTokens, Collapse;
    CollapseNoFour(text);
    NoFourIsInk(Collapse(text));
    BreakGood(Collapse(text));
    var folded := Fold(ws, BreakLongTokens(Collapse(text)));
    FoldGood(ws, BreakLongTokens(Collapse(text)));
    FoldFolded(ws, BreakLongTokens(Collapse(text)));
    var l := StripLeft(ws, folded);
    var r := StripRight(ws, l);
    NormalSlice(ws, folded, |folded| - |l|, |folded|);
    assert folded[|folded| - |l|..|folded|] == l;
    NormalSlice(ws, l, 0, |r|);
    assert l[0..|r|] == r;
  }

  lemma {:induction false} NoFourIsInk(s: string)
    requires NoFour(s)
    ensures NoFourInk(s)
  {
  }

  /** A text in the normal form, and only such a text, is left alone. */
  lemma {:induction false} TidyFixesExactlyNormal(ws: Spaces, text: string)
    requires ' ' in ws
    ensures Tidy(ws, text) == text <==> Normal(ws, text)
  {
    hide NoFour, Folded, ShortWords, Fold, BreakLongTokens, Collapse, Strip;
    TidyIsNormal(ws, text);
    if Normal(ws, text) {
      CollapseKeeps(text);
      BreakKeeps(text);
      FoldKeeps(ws, text);
      StripTrimmed(ws, text);
    }
  }

  /** Applying the three stages again changes nothing. */
  lemma {:induction false} TidyIsIdempotent(ws: Spaces, text: string)
    requires ' ' in ws
    ensures Tidy(ws, Tidy(ws, text)) == Tidy(ws, text)
  {
    hide Tidy;
    TidyIsNormal(ws, text);
    TidyFixesExactlyNormal(ws, Tidy(ws, text));
  }

  // --- what each stage keeps -----------------------------------------------------------------------

  /** A text as its maximal runs of equal characters. */
  function Runs(s: string): seq<(char, nat)>
    decreases |s|
  {
    if s == "" then [] else [(s[0], Run(s))] + Runs(s[Run(s)..])
  }

  /** Runs of more than three are cut to three. */
  function CutRuns(runs: seq<(char, nat)>): seq<(char, nat)> {
    seq(|runs|, i requires 0 <= i < |runs| => (runs[i].0, if runs[i].1 > 3 then 3 else runs[i].1))
  }

  /** A run in front of a text that goes on otherwise. */
  predicate IsRun(head: string, tail: string) {
    head != "" && (forall i | 0 <= i < |head| :: head[i] == head[0]) && (tail != "" ==> tail[0] != head[0])
  }

  lemma {:induction false} RunIs(head: string, tail: string)
    requires IsRun(head, tail)
    ensures Run(head + tail) == |head|
  {
    var s := head + tail;
    if |head| > 1 {
      assert head[1..][0] == head[0] && s[1..] == head[1..] + tail && s[1] == head[1];
      assert forall i | 0 <= i < |head[1..]| :: head[1..][i] == head[i + 1];
      RunIs(head[1..], tail);
    }
  }

  lemma {:induction false} RunsStep(head: string, tail: string)
    requires IsRun(head, tail)
    ensures Runs(head + tail) == [(head[0], |head|)] + Runs(tail)
  {
    hide Run;
    RunIs(head, tail);
    assert (head + tail)[|head|..] == tail;
  }

  lemma CutRunsStep(c: char, n: nat, rest: seq<(char, nat)>)
    ensures CutRuns([(c, n)] + rest) == [(c, if n > 3 then 3 else n)] + CutRuns(rest)
  {
  }

  /** Collapsing cuts every run of more than three to three, and touches nothing else. */
  lemma {:induction false} CollapseCutsRuns(s: string)
    ensures Runs(Collapse(s)) == CutRuns(Runs(s))
    decreases |s|
  {
    if s != "" {
      var n := Run(s);
      var rest := s[n..];
      var head, tail := s[..if n < 3 then n else 3], Collapse(rest);
      CollapseCutsRuns(rest);
      CollapseNoFour(rest);
      assert IsRun(head, tail) && head[0] == s[0];
      hide Run, Collapse, IsRun;
      RunsStep(head, tail);
      CutRunsStep(s[0], n, Runs(rest));
    }
  }

  /** The pieces of a token: all of the limit's length but the last, which has what is left. */
  predicate CutInto(token: string, pieces: seq<string>) {
    && pieces != [] && Concat(pieces) == token
    && (forall k | 0 <= k < |pieces| - 1 :: |pieces[k]| == 40)
    && |pieces[|pieces| - 1]| <= 40 && (token != "" ==> pieces[|pieces| - 1] != "")
  }

  lemma {:induction false} BreakTokenIsCut(token: string)
    ensures CutInto(token, BreakToken(token))
  {
    if |token| <= LONG_TOKEN {
      assert Concat([token]) == token + Concat([token][1..]);
    } else {
      var head, tail := token[..LONG_TOKEN], token[LONG_TOKEN..];
      BreakTokenIsCut(tail);
      var rest := BreakToken(tail);
      assert ([head] + rest)[1..] == rest && head + tail == token;
    }
  }

  /** The tokens of the broken text are those of the text, each cut into such pieces. */
  lemma {:induction false} BreakIsExact(text: string) returns (groups: seq<seq<string>>)
    ensures Flatten(groups) == Split(' ', BreakLongTokens(text))
    ensures |groups| == |Split(' ', text)|
    ensures forall i | 0 <= i < |groups| :: CutInto(Split(' ', text)[i], groups[i])
  {
    hide Split, BreakTokens, CutInto, BreakToken;
    var tokens := Split(' ', text);
    groups := BreakGroups(tokens);
    SplitFree(' ', text);
    PiecesAreFree(tokens);
    SplitJoin(' ', BreakTokens(tokens));
  }

  lemma {:induction false} BreakGroups(tokens: seq<string>) returns (groups: seq<seq<string>>)
    ensures Flatten(groups) == BreakTokens(tokens) && |groups| == |tokens|
    ensures forall i | 0 <= i < |groups| :: CutInto(tokens[i], groups[i])
  {
    hide CutInto, BreakToken;
    groups := [];
    if tokens != [] {
      var n := |tokens| - 1;
      var front := BreakGroups(tokens[..n]);
      BreakTokenIsCut(tokens[n]);
      groups := front + [BreakToken(tokens[n])];
      FlattenLast(front, BreakToken(tokens[n]));
    }
  }

  lemma {:induction false} PiecesAreFree(tokens: seq<string>)
    requires tokens != [] && forall token | token in tokens :: ' ' !in token
    ensures BreakTokens(tokens) != [] && forall piece | piece in BreakTokens(tokens) :: ' ' !in piece
    decreases |tokens|
  {
    var front, last := tokens[..|tokens| - 1], tokens[|tokens| - 1];
    assert last in tokens && forall token | token in front :: token in tokens;
    PieceIsFree(last);
    if front != [] {
      PiecesAreFree(front);
    }
  }

  lemma {:induction false} PieceIsFree(token: string)
    requires ' ' !in token
    ensures BreakToken(token) != [] && forall piece | piece in BreakToken(token) :: ' ' !in piece
  {
    if |token| > LONG_TOKEN {
      PieceIsFree(token[LONG_TOKEN..]);
    }
  }

  /** The words joined by blanks, with a blank at either end where there is space. */
  function Framed(ws: Spaces, s: string): string {
    if s == "" then ""
    else if Words(ws, s) == [] then " "
    else (if s[0] in ws then " " else "") + Join(" ", Words(ws, s)) + if s[|s| - 1] in ws then " " else ""
  }

  lemma {:induction false} FramedGap(ws: Spaces, gap: string, rest: string)
    requires Blank(ws, gap) && gap != "" && (rest == "" || StartsVisible(ws, rest))
    ensures Framed(ws, gap + rest) == " " + Framed(ws, rest)
  {
    hide Words, Join, Blank;
    assert gap + rest == "" + gap + rest;
    WordsBetween(ws, "", gap, rest);
    NoWords(ws);
    BlankEnds(ws, gap);
    assert [] + Words(ws, rest) == Words(ws, rest);
    if rest != "" {
      var words, joined := Words(ws, rest), Join(" ", Words(ws, rest));
      assert "" + joined == joined;
      AppendAssoc(" ", joined, if rest[|rest| - 1] in ws then " " else "");
    }
  }

  lemma {:induction false} FramedCons(ws: Spaces, c: char, rest: string)
    requires c !in ws
    ensures Framed(ws, [c] + rest) == [c] + Framed(ws, rest)
  {
    hide Words, Join;
    FoldCons(ws, c, rest);
    WordsStep(ws, c, rest);
    if rest == "" {
      NoWords(ws);
      assert [c] + "" == [c];
    } else {
      WordsOfBlank(ws, rest);
      FrameLonger(c, rest, Join(" ", Words(ws, rest)), if rest[|rest| - 1] in ws then " " else "");
      assert Words(ws, rest) == [] ==> rest[|rest| - 1] in rest;
    }
  }

  lemma FrameLonger(c: char, rest: string, joined: string, end: string)
    requires rest != ""
    ensures ([c] + rest)[0] == c && ([c] + rest)[|[c] + rest| - 1] == rest[|rest| - 1]
    ensures "" + ([c] + joined) + end == [c] + ("" + joined + end)
    ensures "" + ([c] + " " + joined) + end == [c] + (" " + joined + end)
    ensures "" + [c] + " " == [c] + " "
  {
    assert "" + ([c] + joined) == [c] + joined && "" + joined == joined;
    AppendAssoc([c], joined, end);
    AppendAssoc([c], " ", joined);
    AppendAssoc([c], " " + joined, end);
  }

  /** Folding puts one blank between the words, and one at either end where there was space. */
  lemma {:induction false} FoldIs(ws: Spaces, s: string)
    requires ' ' in ws
    ensures Fold(ws, s) == Framed(ws, s)
    decreases |s|
  {
    hide Words, Join, Blank, Framed;
    if s == "" {
      assert Framed(ws, "") == "" by { NothingFramed(ws); }
    } else if s[0] in ws {
      var j := SkipSpaces(ws, s, 1);
      SkippedIsBlank(ws, s, j);
      FoldIs(ws, s[j..]);
      FramedGap(ws, s[..j], s[j..]);
      assert s == s[..j] + s[j..];
    } else {
      FoldIs(ws, s[1..]);
      FramedCons(ws, s[0], s[1..]);
      assert s == [s[0]] + s[1..];
    }
  }

  lemma NothingFramed(ws: Spaces)
    ensures Framed(ws, "") == ""
  {
  }

  lemma SkippedIsBlank(ws: Spaces, s: string, j: nat)
    requires s != "" && s[0] in ws && j == SkipSpaces(ws, s, 1)
    ensures 0 < j <= |s| && Blank(ws, s[..j]) && s[..j] != "" && (j < |s| ==> s[j] !in ws)
  {
  }

  /** A visible character in front of a folded rest. */
  lemma {:induction false} FoldCons(ws: Spaces, c: char, rest: string)
    requires c !in ws
    ensures var words := Words(ws, rest);
            Join(" ", Words(ws, [c] + rest)) ==
            if words == [] then [c]
            else if StartsVisible(ws, rest) then [c] + Join(" ", words)
            else [c] + " " + Join(" ", words)
  {
    hide Words;
    WordsStep(ws, c, rest);
    var words := Words(ws, rest);
    if words != [] {
      if StartsVisible(ws, rest) {
        assert words == [words[0]] + words[1..];
        JoinFirst([c], words[0], words[1..]);
      } else {
        assert ([[c]] + words)[1..] == words;
      }
    }
  }

  lemma {:induction false} JoinFirst(x: string, y: string, rest: seq<string>)
    ensures Join(" ", [x + y] + rest) == x + Join(" ", [y] + rest)
  {
    assert ([x + y] + rest)[1..] == rest && ([y] + rest)[1..] == rest;
    if rest != [] {
      assert x + y + " " + Join(" ", rest) == x + (y + " " + Join(" ", rest));
    }
  }

  /** The tidied text is the words of the broken one, joined by single blanks. */
  lemma {:induction false} TidyIsWords(ws: Spaces, text: string)
    requires ' ' in ws
    ensures Tidy(ws, text) == Join(" ", Words(ws, BreakLongTokens(Collapse(text))))
  {
    hide Strip, Words, Join, Fold, BreakLongTokens, Collapse;
    var s := BreakLongTokens(Collapse(text));
    FoldIs(ws, s);
    WordsOfBlank(ws, s);
    if Blank(ws, s) {
      StripBlank(ws, Fold(ws, s));
      JoinOfNone();
    } else {
      var lead, trail := if s[0] in ws then " " else "", if s[|s| - 1] in ws then " " else "";
      WordsAreTrimmed(ws, s);
      var joined := Join(" ", Words(ws, s));
      StripRoom(ws, lead, joined, trail);
    }
  }

  lemma JoinOfNone()
    ensures Join(" ", []) == ""
  {
  }

  lemma {:induction false} StripRoom(ws: Spaces, a: string, s: string, b: string)
    requires Blank(ws, a) && Blank(ws, b) && StartsVisible(ws, s) && EndsVisible(ws, s)
    ensures Strip(ws, a + s + b) == s
  {
    hide Blank;
    StripBlankTail(ws, a + s, b);
    StripBlankHead(ws, a, s);
    StripTrimmed(ws, s);
  }

  lemma {:induction false} WordsAreTrimmed(ws: Spaces, s: string)
    requires !Blank(ws, s)
    ensures StartsVisible(ws, Join(" ", Words(ws, s))) && EndsVisible(ws, Join(" ", Words(ws, s)))
  {
    hide Join;
    WordsOfBlank(ws, s);
    WordsAreVisible(ws, s);
    JoinIsTrimmed(ws, Words(ws, s));
  }

  lemma {:induction false} WordsAreVisible(ws: Spaces, s: string)
    ensures forall word | word in Words(ws, s) :: StartsVisible(ws, word) && EndsVisible(ws, word)
  {
    if s != "" {
      var rest := Words(ws, s[1..]);
      WordsAreVisible(ws, s[1..]);
      assert rest != [] ==> rest[0] in rest;
    }
  }

  lemma {:induction false} JoinIsTrimmed(ws: Spaces, words: seq<string>)
    requires words != [] && forall word | word in words :: StartsVisible(ws, word) && EndsVisible(ws, word)
    ensures StartsVisible(ws, Join(" ", words)) && EndsVisible(ws, Join(" ", words))
  {
    assert words[0] in words;
    if |words| > 1 {
      JoinIsTrimmed(ws, words[1..]);
    }
  }
}
