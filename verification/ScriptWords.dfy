/** What the chunker does to the words and sentences of a script: no word is broken or glued but where it is
    too long, and no sentence or clause is cut that fits. */
module ScriptWords {
  import opened Text
  import opened ScriptChunker
  import opened ScriptChunkerFacts

  // --- _hard_wrap: words --------------------------------------------------------------------

  /** What the words of a list are cut into, with the words of each piece. */
  function CutWords(ws: Spaces, hardMax: nat, words: seq<string>): seq<string>
    requires hardMax > 0
  {
    if words == [] then []
    else
      var word := words[|words| - 1];
      CutWords(ws, hardMax, words[..|words| - 1]) +
      (WordsAll(ws, Slices(hardMax, word)) + Words(ws, Residue(hardMax, word)))
  }

  lemma {:induction false} CandidateWords(ws: Spaces, buf: string, residue: string)
    requires ' ' in ws
    ensures Words(ws, Strip(ws, buf + " " + residue)) == Words(ws, buf) + Words(ws, residue)
  {
    hide Strip, Words;
    WordsOfStrip(ws, buf + " " + residue);
    WordsBetween(ws, buf, " ", residue);
  }

  lemma {:induction false} FlushWords(ws: Spaces, w: Wrapping)
    ensures WordsAll(ws, w.Flush()) == WordsAll(ws, w.out) + Words(ws, w.buf)
  {
    hide Words, WordsAll;
    NoWords(ws);
    WordsAllOne(ws, w.buf);
    if w.buf != "" {
      WordsAllAppend(ws, w.out, [w.buf]);
    }
  }

  /** What one word adds: its pieces' words go out before those of the buffer when that is flushed. */
  lemma {:induction false} WrapWordWords(ws: Spaces, hardMax: nat, w: Wrapping, word: string, w': Wrapping)
    requires ' ' in ws && hardMax > 0 && |w.buf| <= hardMax && w' == WrapWord(ws, hardMax, w, word)
    ensures Adds(Flushes(ws, hardMax, w, word), WordsAll(ws, w.out), Words(ws, w.buf),
                 WordsAll(ws, Slices(hardMax, word)), Words(ws, Residue(hardMax, word)),
                 WordsAll(ws, w'.out), Words(ws, w'.buf))
  {
    hide Strip, Visible, VisibleAll, Words, WordsAll, Slices, Residue;
    var residue := Residue(hardMax, word);
    WordsAllAppend(ws, w.out, Slices(hardMax, word));
    CandidateVisible(ws, w.buf, residue);
    CandidateWords(ws, w.buf, residue);
    FlushWords(ws, Wrapping(w.out + Slices(hardMax, word), w.buf));
    ShownIffWords(ws, residue);
  }

  lemma ShownIffWords(ws: Spaces, s: string)
    ensures Visible(ws, s) == "" <==> Words(ws, s) == []
  {
    BlankIsInvisible(ws, s);
    WordsOfBlank(ws, s);
  }

  lemma {:induction false} ShownIffWordsAll(ws: Spaces, parts: seq<string>)
    ensures VisibleAll(ws, parts) == "" <==> WordsAll(ws, parts) == []
  {
    hide Visible, Words;
    if parts != [] {
      ShownIffWords(ws, parts[0]);
      ShownIffWordsAll(ws, parts[1..]);
    }
  }

  lemma {:induction false} WrapKeepsWords(ws: Spaces, hardMax: nat, words: seq<string>)
    requires ' ' in ws && hardMax > 0
    ensures var w := WrapWords(ws, hardMax, words);
            && multiset(WordsAll(ws, w.out)) + multiset(Words(ws, w.buf)) == multiset(CutWords(ws, hardMax, words))
            && (InOrder(ws, hardMax, words) ==>
                  WordsAll(ws, w.out) + Words(ws, w.buf) == CutWords(ws, hardMax, words))
    decreases |words|
  {
    hide WrapWord, Flushes, Words, WordsAll, Slices, Residue, Visible, VisibleAll;
    if words == [] {
      NoWords(ws);
      WordsAllOne(ws, "");
    } else {
      var before, word := words[..|words| - 1], words[|words| - 1];
      var w, w' := WrapWords(ws, hardMax, before), WrapWords(ws, hardMax, words);
      WrapBounded(ws, hardMax, before);
      WrapKeepsWords(ws, hardMax, before);
      WrapWordWords(ws, hardMax, w, word, w');
      AddsConserves(Flushes(ws, hardMax, w, word), WordsAll(ws, w.out), Words(ws, w.buf),
                    WordsAll(ws, Slices(hardMax, word)), Words(ws, Residue(hardMax, word)),
                    WordsAll(ws, w'.out), Words(ws, w'.buf), CutWords(ws, hardMax, before));
      if InOrder(ws, hardMax, words) {
        assert forall i | 0 <= i < |before| :: words[i] == before[i];
        BufferVisible(ws, hardMax, before);
        ShownIffWords(ws, w.buf);
        ShownIffWordsAll(ws, Slices(hardMax, word));
        assert WordsAll(ws, Slices(hardMax, word)) != [] ==> CutVisible(ws, hardMax, words[|words| - 1]);
        AddsInOrder(Flushes(ws, hardMax, w, word), WordsAll(ws, w.out), Words(ws, w.buf),
                    WordsAll(ws, Slices(hardMax, word)), Words(ws, Residue(hardMax, word)),
                    WordsAll(ws, w'.out), Words(ws, w'.buf));
      }
    }
  }

  /** The words of the wrapped text are those of the pieces its words are cut into, none broken or glued
      otherwise; and in order when no cut word follows a left-over. */
  lemma {:induction false} HardWrapWords(ws: Spaces, hardMax: nat, text: string)
    requires ' ' in ws && hardMax > 0
    ensures var words := Split(' ', text);
            && multiset(WordsAll(ws, HardWrap(ws, hardMax, text))) == multiset(CutWords(ws, hardMax, words))
            && (InOrder(ws, hardMax, words) ==>
                  WordsAll(ws, HardWrap(ws, hardMax, text)) == CutWords(ws, hardMax, words))
  {
    hide WrapWords, Words, WordsAll, Split, CutWords, InOrder;
    WrapKeepsWords(ws, hardMax, Split(' ', text));
    FlushWords(ws, WrapWords(ws, hardMax, Split(' ', text)));
  }

  lemma {:induction false} ShortWordsStay(ws: Spaces, hardMax: nat, words: seq<string>)
    requires hardMax > 0 && forall word | word in words :: |word| <= hardMax
    ensures CutWords(ws, hardMax, words) == WordsAll(ws, words) && InOrder(ws, hardMax, words)
    decreases |words|
  {
    hide Words, WordsAll, CutVisible, LeftVisible, VisibleAll;
    forall j | 0 <= j < |words| ensures !CutVisible(ws, hardMax, words[j]) {
      assert words[j] in words;
      ShortWordUncut(ws, hardMax, words[j]);
    }
    if words == [] {
      WordsAllOne(ws, "");
    } else {
      var before, word := words[..|words| - 1], words[|words| - 1];
      assert word in words && forall w | w in before :: w in words;
      ShortWordsStay(ws, hardMax, before);
      LastWords(ws, words);
      WordsAllOne(ws, word);
    }
  }

  lemma {:induction false} ShortWordsWrap(ws: Spaces, hardMax: nat, text: string)
    requires ' ' in ws && hardMax > 0 && ShortWords(hardMax, text)
    ensures WordsAll(ws, HardWrap(ws, hardMax, text)) == Words(ws, text)
  {
    hide HardWrap, Words, WordsAll, Split, InOrder, CutWords, ShortWords;
    ShortWordsSplit(hardMax, text);
    ShortWordsStay(ws, hardMax, Split(' ', text));
    HardWrapWords(ws, hardMax, text);
    WordsOfSplit(ws, ' ', text);
  }

  // --- _hard_wrap: a packing of the words ------------------------------------------------------

  /** A word: some characters and no space. */
  predicate IsWord(ws: Spaces, word: string) {
    word != "" && forall c | c in word :: c !in ws
  }

  lemma {:induction false} WordsPack(ws: Spaces, hardMax: nat, words: seq<string>, more: seq<string>)
    requires ' ' in ws && hardMax > 0
    requires forall word | word in words + more :: IsWord(ws, word) && |word| <= hardMax
    ensures var w := WrapWords(ws, hardMax, words);
            && w.out + PackFrom(hardMax, w.buf, more) == Pack(hardMax, words + more)
            && (w.buf == "" || (StartsVisible(ws, w.buf) && EndsVisible(ws, w.buf)))
    decreases |words|
  {
    hide WrapWord, PackFrom, IsWord;
    if words == [] {
      assert words + more == more && [] + PackFrom(hardMax, "", more) == PackFrom(hardMax, "", more);
    } else {
      var before, word := words[..|words| - 1], words[|words| - 1];
      assert before + ([word] + more) == words + more && word in words + more;
      assert forall w | w in before + ([word] + more) :: w in words + more;
      WordsPack(ws, hardMax, before, [word] + more);
      PackOne(ws, hardMax, WrapWords(ws, hardMax, before), word, more);
    }
  }

  /** A word goes where the packing puts it. */
  lemma {:induction false} PackOne(ws: Spaces, hardMax: nat, w: Wrapping, word: string, more: seq<string>)
    requires ' ' in ws && hardMax > 0 && IsWord(ws, word) && |word| <= hardMax
    requires w.buf == "" || (StartsVisible(ws, w.buf) && EndsVisible(ws, w.buf))
    ensures var w' := WrapWord(ws, hardMax, w, word);
            && w'.out + PackFrom(hardMax, w'.buf, more) == w.out + PackFrom(hardMax, w.buf, [word] + more)
            && StartsVisible(ws, w'.buf) && EndsVisible(ws, w'.buf)
  {
    hide Strip;
    WordIsVisible(ws, word);
    assert ([word] + more)[1..] == more && Slices(hardMax, word) == [] && w.out + [] == w.out;
    if w.buf == "" {
      assert "" + " " + word == " " + word;
      StripBlankHead(ws, " ", word);
      StripTrimmed(ws, word);
    } else {
      StripTrimmed(ws, w.buf + " " + word);
      AppendAssoc(w.out, [w.buf], PackFrom(hardMax, word, more));
    }
  }

  lemma WordIsVisible(ws: Spaces, word: string)
    requires IsWord(ws, word)
    ensures StartsVisible(ws, word) && EndsVisible(ws, word) && Trimmed(ws, word)
  {
    assert word[0] in word && word[|word| - 1] in word;
  }

  /** Whitespace is single blanks, and there is none at the ends. */
  predicate Tidied(ws: Spaces, text: string) {
    text != "" && Trimmed(ws, text) && Folded(ws, text)
  }

  lemma {:induction false} TidyWords(ws: Spaces, text: string)
    requires Tidied(ws, text) && ' ' in ws
    ensures forall word | word in Split(' ', text) :: IsWord(ws, word)
    decreases |text|
  {
    hide IsWord, Split, Tidied;
    var i := FirstBlank(text);
    var word, rest := text[..i], text[i..];
    assert text == word + rest;
    SplitWord(' ', word, rest);
    assert word + "" == word;
    assert IsWord(ws, word) by { FirstIsWord(ws, text, i); }
    if i == |text| {
      SplitOfNothing(rest);
    } else {
      var later := text[i + 1..];
      assert rest == " " + later && rest[1..] == later;
      SplitOfBlankHead(later);
      LaterIsTidy(ws, text, i);
      TidyWords(ws, later);
    }
  }

  lemma SplitOfNothing(s: string)
    requires s == ""
    ensures Split(' ', s) == [""]
  {
  }

  lemma SplitOfBlankHead(s: string)
    ensures Split(' ', " " + s) == [""] + Split(' ', s)
  {
    assert (" " + s)[1..] == s;
  }

  lemma {:induction false} FirstIsWord(ws: Spaces, text: string, i: nat)
    requires Tidied(ws, text) && ' ' in ws && i <= |text| && ' ' !in text[..i] && (i < |text| ==> text[i] == ' ')
    ensures IsWord(ws, text[..i])
  {
    forall k | 0 <= k < i ensures text[k] !in ws {
      assert text[k] == text[..i][k];
    }
  }

  lemma LaterIsTidy(ws: Spaces, text: string, i: nat)
    requires Tidied(ws, text) && i < |text| && text[i] == ' ' && ' ' in ws
    ensures Tidied(ws, text[i + 1..])
  {
    var later := text[i + 1..];
    assert forall k | 0 <= k < |later| :: later[k] == text[i + 1 + k];
  }

  /** A tidy text of short words is wrapped by packing its words: joined by blanks the pieces are the text, and
      there are as few of them as can be. */
  lemma {:induction false} HardWrapIsPacking(ws: Spaces, hardMax: nat, text: string)
    requires ' ' in ws && hardMax > 0 && Tidied(ws, text) && ShortWords(hardMax, text)
    ensures HardWrap(ws, hardMax, text) == Pack(hardMax, Split(' ', text))
    ensures Join(" ", HardWrap(ws, hardMax, text)) == text
  {
    hide Split, WrapWords, PackFrom, ShortWords, Join, IsWord;
    var words := Split(' ', text);
    ShortWordsSplit(hardMax, text);
    TidyWords(ws, text);
    assert words + [] == words;
    WordsPack(ws, hardMax, words, []);
    LastOfPack(hardMax, WrapWords(ws, hardMax, words));
    assert NonEmpty(words) by { WordsAreNonEmpty(ws, words); }
    var parts := PackingIsPartition(hardMax, words);
    JoinFlat(parts);
    JoinSplit(' ', text);
  }

  lemma WordsAreNonEmpty(ws: Spaces, words: seq<string>)
    requires forall word | word in words :: IsWord(ws, word)
    ensures NonEmpty(words)
  {
  }

  lemma LastOfPack(hardMax: nat, w: Wrapping)
    ensures w.Flush() == w.out + PackFrom(hardMax, w.buf, [])
  {
    assert w.out + [] == w.out;
  }

  /** Joining the joined parts joins all. */
  lemma {:induction false} JoinFlat(parts: seq<seq<string>>)
    requires forall part | part in parts :: part != []
    ensures Join(" ", JoinEach(parts)) == Join(" ", Flatten(parts))
  {
    hide Join;
    if parts == [] {
    } else {
      var first, rest := parts[0], parts[1..];
      assert first in parts && forall part | part in rest :: part in parts;
      JoinFlat(rest);
      JoinHead(" ", Join(" ", first), JoinEach(rest));
      JoinParts(first, Flatten(rest));
      FlattenIsEmpty(rest);
    }
  }

  lemma {:induction false} FlattenIsEmpty(parts: seq<seq<string>>)
    requires forall part | part in parts :: part != []
    ensures Flatten(parts) == [] <==> parts == []
    ensures JoinEach(parts) == [] <==> parts == []
  {
    assert parts != [] ==> parts[0] in parts;
  }

  lemma {:induction false} JoinParts(a: seq<string>, b: seq<string>)
    requires a != []
    ensures Join(" ", a + b) == if b == [] then Join(" ", a) else Join(" ", a) + " " + Join(" ", b)
  {
    hide Join;
    if b == [] {
      assert a + b == a;
    } else if |a| == 1 {
      JoinHead(" ", a[0], b);
      JoinHead(" ", a[0], []);
      assert a == [a[0]] && [a[0]] + [] == [a[0]];
    } else {
      JoinParts(a[1..], b);
      JoinHead(" ", a[0], a[1..]);
      JoinHead(" ", a[0], a[1..] + b);
      assert a == [a[0]] + a[1..] && a + b == [a[0]] + (a[1..] + b);
      assert a[0] + " " + (Join(" ", a[1..]) + " " + Join(" ", b)) ==
             a[0] + " " + Join(" ", a[1..]) + " " + Join(" ", b);
    }
  }

  // --- chunks: words -----------------------------------------------------------------------------

  lemma {:induction false} PackWords(ws: Spaces, target: int, buf: string, units: seq<string>)
    requires ' ' in ws
    ensures WordsAll(ws, PackFrom(target, buf, units)) == Words(ws, buf) + WordsAll(ws, units)
    decreases |units|
  {
    hide Words, WordsAll;
    NoWords(ws);
    WordsAllOne(ws, buf);
    if units != [] {
      var unit, rest := units[0], units[1..];
      assert units == [unit] + rest;
      WordsAllAppend(ws, [unit], rest);
      WordsAllOne(ws, unit);
      if buf == "" {
        PackWords(ws, target, unit, rest);
      } else if |buf| + 1 + |unit| > target {
        PackWords(ws, target, unit, rest);
        WordsAllAppend(ws, [buf], PackFrom(target, unit, rest));
      } else {
        PackWords(ws, target, buf + " " + unit, rest);
        WordsBetween(ws, buf, " ", unit);
        AppendAssoc(Words(ws, buf), Words(ws, unit), WordsAll(ws, rest));
      }
    }
  }

  lemma {:induction false} ClauseWords(ws: Spaces, hardMax: nat, clause: string)
    requires ' ' in ws && hardMax > 0 && ShortWords(hardMax, clause)
    ensures WordsAll(ws, ClausePieces(ws, hardMax, clause)) == Words(ws, clause)
  {
    hide Strip, Words, WordsAll, HardWrap, ShortWords;
    WordsOfStrip(ws, clause);
    NoWords(ws);
    WordsAllOne(ws, Strip(ws, clause));
    if |Strip(ws, clause)| > hardMax {
      ShortWordsStrip(ws, hardMax, clause);
      ShortWordsWrap(ws, hardMax, Strip(ws, clause));
    }
  }

  lemma {:induction false} ClausesWords(ws: Spaces, hardMax: nat, clauses: seq<string>)
    requires ' ' in ws && hardMax > 0 && forall clause | clause in clauses :: ShortWords(hardMax, clause)
    ensures WordsAll(ws, AllClausePieces(ws, hardMax, clauses)) == WordsAll(ws, clauses)
    decreases |clauses|
  {
    hide Words, WordsAll, ClausePieces, ShortWords;
    if clauses != [] {
      var before, last := clauses[..|clauses| - 1], clauses[|clauses| - 1];
      assert last in clauses && forall c | c in before :: c in clauses;
      ClausesWords(ws, hardMax, before);
      ClauseWords(ws, hardMax, last);
      LastWords(ws, clauses);
      WordsAllAppend(ws, AllClausePieces(ws, hardMax, before), ClausePieces(ws, hardMax, last));
    }
  }

  lemma {:induction false} SentenceWords(ws: Spaces, hardMax: nat, sentence: string)
    requires ' ' in ws && hardMax > 0 && ShortWords(hardMax, sentence)
    ensures WordsAll(ws, SentenceUnits(ws, hardMax, sentence)) == Words(ws, sentence)
  {
    hide Strip, Words, WordsAll, AllClausePieces, SplitAfter, ShortWords;
    WordsOfStrip(ws, sentence);
    NoWords(ws);
    WordsAllOne(ws, Strip(ws, sentence));
    if |sentence| > hardMax {
      ShortWordsSplitAfter(ws, CLAUSE_ENDS, hardMax, sentence);
      ClausesWords(ws, hardMax, SplitAfter(ws, CLAUSE_ENDS, sentence));
      WordsOfSplitAfter(ws, CLAUSE_ENDS, sentence);
    }
  }

  lemma {:induction false} SentencesWords(ws: Spaces, hardMax: nat, sentences: seq<string>)
    requires ' ' in ws && hardMax > 0 && forall sentence | sentence in sentences :: ShortWords(hardMax, sentence)
    ensures WordsAll(ws, AllUnits(ws, hardMax, sentences)) == WordsAll(ws, sentences)
    decreases |sentences|
  {
    hide Words, WordsAll, SentenceUnits, ShortWords;
    if sentences != [] {
      var before, last := sentences[..|sentences| - 1], sentences[|sentences| - 1];
      assert last in sentences && forall s | s in before :: s in sentences;
      SentencesWords(ws, hardMax, before);
      SentenceWords(ws, hardMax, last);
      LastWords(ws, sentences);
      WordsAllAppend(ws, AllUnits(ws, hardMax, before), SentenceUnits(ws, hardMax, last));
    }
  }

  lemma {:induction false} SegmentWords(ws: Spaces, target: int, hardMax: nat, seg: Segment)
    requires ' ' in ws && hardMax > 0 && ShortWords(hardMax, seg.text)
    ensures WordsAll(ws, SegmentTexts(ws, target, hardMax, seg)) == Words(ws, seg.text)
  {
    hide Strip, Words, WordsAll, AllUnits, SplitAfter, PackFrom, ShortWords;
    var stripped := Strip(ws, seg.text);
    ShortWordsStrip(ws, hardMax, seg.text);
    ShortWordsSplitAfter(ws, SENTENCE_ENDS, hardMax, stripped);
    SentencesWords(ws, hardMax, SplitAfter(ws, SENTENCE_ENDS, stripped));
    WordsOfSplitAfter(ws, SENTENCE_ENDS, stripped);
    WordsOfStrip(ws, seg.text);
    PackWords(ws, target, "", Units(ws, hardMax, seg.text));
    NoWords(ws);
  }

  function SegmentsText(segments: seq<Segment>): seq<string> {
    seq(|segments|, i requires 0 <= i < |segments| => segments[i].text)
  }

  /** The words of a script's chunks, in order, are the words of its segments, when none exceeds the hard limit. */
  lemma {:induction false} ScriptKeepsWords(ws: Spaces, target: int, hardMax: nat, segments: seq<Segment>)
    requires ' ' in ws && hardMax > 0 && forall seg | seg in segments :: ShortWords(hardMax, seg.text)
    ensures WordsAll(ws, ChunkTexts(AllChunks(ws, target, hardMax, segments))) == WordsAll(ws, SegmentsText(segments))
    decreases |segments|
  {
    hide Words, WordsAll, SegmentTexts, ShortWords, AddSegment;
    if segments != [] {
      var before, last := segments[..|segments| - 1], segments[|segments| - 1];
      assert last in segments && forall s | s in before :: s in segments;
      ScriptKeepsWords(ws, target, hardMax, before);
      SegmentWords(ws, target, hardMax, last);
      AddSegmentTexts(ws, target, hardMax, AllChunks(ws, target, hardMax, before), last);
      WordsAllAppend(ws, ChunkTexts(AllChunks(ws, target, hardMax, before)), SegmentTexts(ws, target, hardMax, last));
      var texts := SegmentsText(segments);
      assert texts[..|texts| - 1] == SegmentsText(before);
      LastWords(ws, texts);
    } else {
      WordsAllOne(ws, "");
      assert ChunkTexts([]) == [] && SegmentsText([]) == [];
    }
  }

  // --- chunks: sentences ---------------------------------------------------------------------------

  /** The sentence or clause is, trimmed, one of the units. */
  predicate Unit(ws: Spaces, units: seq<string>, text: string) {
    Strip(ws, text) == "" || Strip(ws, text) in units
  }

  /** Sentences that fit are units of their own, and so are the clauses that fit of those that do not. */
  predicate KeepsWhole(ws: Spaces, hardMax: nat, units: seq<string>, sentence: string) {
    if |sentence| <= hardMax then Unit(ws, units, sentence)
    else forall clause | clause in SplitAfter(ws, CLAUSE_ENDS, sentence) && |Strip(ws, clause)| <= hardMax ::
           Unit(ws, units, clause)
  }

  lemma {:induction false} ClausesAreUnits(ws: Spaces, hardMax: nat, clauses: seq<string>)
    requires hardMax > 0
    ensures forall clause | clause in clauses && |Strip(ws, clause)| <= hardMax ::
              Unit(ws, AllClausePieces(ws, hardMax, clauses), clause)
    decreases |clauses|
  {
    hide Strip, HardWrap;
    if clauses != [] {
      var before, last := clauses[..|clauses| - 1], clauses[|clauses| - 1];
      assert clauses == before + [last];
      ClausesAreUnits(ws, hardMax, before);
    }
  }

  lemma {:induction false} SentenceIsKept(ws: Spaces, hardMax: nat, sentence: string)
    requires hardMax > 0
    ensures KeepsWhole(ws, hardMax, SentenceUnits(ws, hardMax, sentence), sentence)
  {
    hide Strip, AllClausePieces, SplitAfter;
    if |sentence| > hardMax {
      ClausesAreUnits(ws, hardMax, SplitAfter(ws, CLAUSE_ENDS, sentence));
      StripBlank(ws, sentence);
      SplitAfterVisible(ws, CLAUSE_ENDS, sentence);
      NothingInBlank(ws, SplitAfter(ws, CLAUSE_ENDS, sentence));
    }
  }

  lemma {:induction false} NothingInBlank(ws: Spaces, parts: seq<string>)
    ensures VisibleAll(ws, parts) == "" ==> forall part | part in parts :: Strip(ws, part) == ""
  {
    hide Strip, Visible;
    if parts != [] {
      StripBlank(ws, parts[0]);
      NothingInBlank(ws, parts[1..]);
    }
  }

  lemma {:induction false} KeptInMore(ws: Spaces, hardMax: nat, units: seq<string>, more: seq<string>, sentence: string)
    requires KeepsWhole(ws, hardMax, units, sentence) && forall unit | unit in units :: unit in more
    ensures KeepsWhole(ws, hardMax, more, sentence)
  {
    hide Strip, SplitAfter;
  }

  lemma {:induction false} SentencesAreKept(ws: Spaces, hardMax: nat, sentences: seq<string>)
    requires hardMax > 0
    ensures forall sentence | sentence in sentences ::
              KeepsWhole(ws, hardMax, AllUnits(ws, hardMax, sentences), sentence)
    decreases |sentences|
  {
    hide KeepsWhole, SentenceUnits;
    if sentences != [] {
      var before, last := sentences[..|sentences| - 1], sentences[|sentences| - 1];
      assert sentences == before + [last];
      var units := AllUnits(ws, hardMax, sentences);
      SentencesAreKept(ws, hardMax, before);
      SentenceIsKept(ws, hardMax, last);
      KeptInMore(ws, hardMax, SentenceUnits(ws, hardMax, last), units, last);
      forall sentence | sentence in before ensures KeepsWhole(ws, hardMax, units, sentence) {
        KeptInMore(ws, hardMax, AllUnits(ws, hardMax, before), units, sentence);
      }
    }
  }

  /** A segment's chunks are its units in groups, each joined by blanks; and a sentence within the hard limit is a
      unit, so it stands whole in one chunk. Of a longer sentence the clauses within the limit do. */
  lemma {:induction false} SentencesStayWhole(ws: Spaces, target: int, hardMax: nat, seg: Segment)
    returns (parts: seq<seq<string>>)
    requires ' ' in ws && hardMax > 0
    ensures SegmentTexts(ws, target, hardMax, seg) == JoinEach(parts)
    ensures IsPartition(target, Units(ws, hardMax, seg.text), parts)
    ensures forall sentence | sentence in SplitAfter(ws, SENTENCE_ENDS, Strip(ws, seg.text)) ::
              KeepsWhole(ws, hardMax, Flatten(parts), sentence)
  {
    hide Strip, SplitAfter, PackFrom, KeepsWhole, AllUnits, Fits;
    var units := Units(ws, hardMax, seg.text);
    UnitsAreGood(ws, hardMax, seg.text);
    parts := PackingIsPartition(target, units);
    SentencesAreKept(ws, hardMax, SplitAfter(ws, SENTENCE_ENDS, Strip(ws, seg.text)));
  }
}
