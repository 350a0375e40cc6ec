/** The playback chunker: `narration/src/narration/chunker.py`. */
module PlaybackChunker {
  import opened Text

  /** The non-blank parts, stripped. */
  function Stripped(ws: Spaces, parts: seq<string>): seq<string> {
    if parts == [] then []
    else (if Strip(ws, parts[0]) == "" then [] else [Strip(ws, parts[0])]) + Stripped(ws, parts[1..])
  }

  function SplitSentences(ws: Spaces, text: string): seq<string> {
    var parts := Stripped(ws, SplitAfter(ws, SENTENCE_ENDS, text));
    if parts != [] then parts else if Strip(ws, text) != "" then [Strip(ws, text)] else []
  }

  // --- what a list of sentences is ------------------------------------------------

  ghost predicate IsSentence(ws: Spaces, s: string) {
    s != "" && Trimmed(ws, s) && NoBreak(ws, SENTENCE_ENDS, s)
  }

  predicate Ended(s: string) {
    s != "" && s[|s| - 1] in SENTENCE_ENDS
  }

  /** Stripped sentences without inner breaks, each but the last ending in a sentence mark. */
  ghost predicate SentenceList(ws: Spaces, ss: seq<string>) {
    && (forall i | 0 <= i < |ss| :: IsSentence(ws, ss[i]))
    && (forall i | 0 <= i < |ss| - 1 :: Ended(ss[i]))
  }

  lemma {:induction false} SentenceSlice(ws: Spaces, ss: seq<string>, a: nat, b: nat)
    requires a <= b <= |ss| && SentenceList(ws, ss)
    ensures SentenceList(ws, ss[a..b])
  {
  }

  lemma {:induction false} NoBreakSlice(ws: Spaces, s: string, a: nat, b: nat)
    requires a <= b <= |s| && forall i | a < i < b :: !IsBreak(ws, SENTENCE_ENDS, s, i)
    ensures NoBreak(ws, SENTENCE_ENDS, s[a..b])
  {
    forall i ensures !IsBreak(ws, SENTENCE_ENDS, s[a..b], i) {
      if 0 < i < b - a {
        assert !IsBreak(ws, SENTENCE_ENDS, s, a + i);
      }
    }
  }

  /** Stripping a text without breaks gives a sentence, and keeps a final sentence mark. */
  lemma {:induction false} StripSentence(ws: Spaces, s: string)
    requires SENTENCE_ENDS !! ws && NoBreak(ws, SENTENCE_ENDS, s)
    ensures Strip(ws, s) != "" ==> IsSentence(ws, Strip(ws, s))
    ensures Ended(s) ==> Strip(ws, s) != "" && Ended(Strip(ws, s))
  {
    var l := StripLeft(ws, s);
    var r := StripRight(ws, l);
    NoBreakSlice(ws, s, |s| - |l|, |s|);
    assert s[|s| - |l|..|s|] == l;
    NoBreakSlice(ws, l, 0, |r|);
    assert l[0..|r|] == r;
    if Ended(s) {
      StripLeftEnded(ws, s);
    }
  }

  lemma {:induction false} StripLeftEnded(ws: Spaces, s: string)
    requires SENTENCE_ENDS !! ws && Ended(s)
    ensures Ended(StripLeft(ws, s))
  {
    if s[0] in ws {
      assert s[1..] != "" by {
        assert s[|s| - 1] !in ws;
      }
      StripLeftEnded(ws, s[1..]);
    }
  }

  /** The sentences of any text form a list of sentences; there are none only in a blank text. */
  lemma {:induction false} PartsAreSentences(ws: Spaces, text: string)
    requires SENTENCE_ENDS !! ws
    ensures SentenceList(ws, Stripped(ws, SplitAfter(ws, SENTENCE_ENDS, text)))
    ensures Stripped(ws, SplitAfter(ws, SENTENCE_ENDS, text)) == [] ==> Strip(ws, text) == ""
    decreases |text|
  {
    hide Strip;
    var i := FirstBreak(ws, SENTENCE_ENDS, text, 0);
    if i == |text| {
      NoBreakSlice(ws, text, 0, i);
      assert text[0..i] == text;
      StripSentence(ws, text);
      assert [text][1..] == [];
    } else {
      var head, tail := text[..i], text[SkipSpaces(ws, text, i)..];
      NoBreakSlice(ws, text, 0, i);
      assert text[0..i] == head;
      StripSentence(ws, head);
      PartsAreSentences(ws, tail);
      var rest := SplitAfter(ws, SENTENCE_ENDS, tail);
      assert ([head] + rest)[1..] == rest;
      ConsSentence(ws, Strip(ws, head), Stripped(ws, rest));
    }
  }

  lemma {:induction false} ConsSentence(ws: Spaces, s: string, ss: seq<string>)
    requires IsSentence(ws, s) && Ended(s) && SentenceList(ws, ss)
    ensures SentenceList(ws, [s] + ss)
  {
    hide IsSentence, Ended;
  }

  lemma {:induction false} SplitGivesSentences(ws: Spaces, text: string)
    requires SENTENCE_ENDS !! ws
    ensures SentenceList(ws, SplitSentences(ws, text))
  {
    hide SentenceList, Strip, Stripped, SplitAfter;
    PartsAreSentences(ws, text);
  }

  // --- splitting undoes joining -------------------------------------------------------

  lemma {:induction false} FirstBreakOfJoin(ws: Spaces, a: string, b: string)
    requires SENTENCE_ENDS !! ws && ' ' in ws && IsSentence(ws, a) && Ended(a) && b != "" && b[0] !in ws
    ensures FirstBreak(ws, SENTENCE_ENDS, a + " " + b, 0) == |a|
    ensures SkipSpaces(ws, a + " " + b, |a|) == |a| + 1
  {
    var s := a + " " + b;
    var r := FirstBreak(ws, SENTENCE_ENDS, s, 0);
    assert IsBreak(ws, SENTENCE_ENDS, s, |a|);
    assert !IsBreak(ws, SENTENCE_ENDS, a, r);
    assert s[|a|] == ' ' && s[|a| + 1] == b[0];
  }

  lemma {:induction false} JoinStartsVisible(ws: Spaces, ss: seq<string>)
    requires ss != [] && SentenceList(ws, ss)
    ensures Join(" ", ss) != "" && Join(" ", ss)[0] !in ws
  {
    assert IsSentence(ws, ss[0]);
  }

  lemma {:induction false} SplitAfterJoin(ws: Spaces, ss: seq<string>)
    requires SENTENCE_ENDS !! ws && ' ' in ws && ss != [] && SentenceList(ws, ss)
    ensures SplitAfter(ws, SENTENCE_ENDS, Join(" ", ss)) == ss
    decreases |ss|, 1
  {
    var a := ss[0];
    assert IsSentence(ws, a);
    if |ss| == 1 {
      var r := FirstBreak(ws, SENTENCE_ENDS, a, 0);
      assert !IsBreak(ws, SENTENCE_ENDS, a, r);
    } else {
      SplitAfterTail(ws, ss);
    }
  }

  lemma {:induction false} SplitAfterTail(ws: Spaces, ss: seq<string>)
    requires SENTENCE_ENDS !! ws && ' ' in ws && |ss| > 1 && SentenceList(ws, ss)
    ensures SplitAfter(ws, SENTENCE_ENDS, Join(" ", ss)) == ss
    decreases |ss|, 0
  {
    hide IsSentence;
    var a, rest := ss[0], ss[1..];
    assert IsSentence(ws, a) && Ended(a);
    SentenceSlice(ws, ss, 1, |ss|);
    assert ss[1..|ss|] == rest;
    JoinStartsVisible(ws, rest);
    SplitAfterJoin(ws, rest);
    var b := Join(" ", rest);
    FirstBreakOfJoin(ws, a, b);
    var s := a + " " + b;
    assert s[..|a|] == a && s[|a| + 1..] == b;
  }

  lemma {:induction false} StrippedSentences(ws: Spaces, ss: seq<string>)
    requires SentenceList(ws, ss)
    ensures Stripped(ws, ss) == ss
  {
    hide SentenceList, Strip;
    if ss != [] {
      StripFirst(ws, ss);
      SentenceSlice(ws, ss, 1, |ss|);
      assert ss[1..|ss|] == ss[1..];
      StrippedSentences(ws, ss[1..]);
    }
  }

  lemma {:induction false} StripFirst(ws: Spaces, ss: seq<string>)
    requires ss != [] && SentenceList(ws, ss)
    ensures ss[0] != "" && Strip(ws, ss[0]) == ss[0]
  {
    assert IsSentence(ws, ss[0]);
    StripTrimmed(ws, ss[0]);
  }

  /** Splitting the join of a list of sentences gives the list back. */
  lemma {:induction false} SplitUndoesJoin(ws: Spaces, ss: seq<string>)
    requires SENTENCE_ENDS !! ws && ' ' in ws && SentenceList(ws, ss)
    ensures SplitSentences(ws, Join(" ", ss)) == ss
  {
    hide SentenceList, Strip;
    if ss != [] {
      SplitAfterJoin(ws, ss);
      StrippedSentences(ws, ss);
    } else {
      StripBlank(ws, "");
      assert Strip(ws, "") == "" && SplitAfter(ws, SENTENCE_ENDS, "") == [""];
      assert Stripped(ws, [""]) == [] + Stripped(ws, [""][1..]);
    }
  }

  // --- pack_playback_chunks ------------------------------------------------------------

  /** How many of the `left` sentences go into the next chunk after the first. */
  function ChunkSize(left: nat): (take: nat)
    ensures left > 0 ==> 0 < take <= left
  {
    if left <= 4 then left else if left == 5 then 2 else 3
  }

  function LaterSlices(rest: seq<string>): seq<seq<string>> {
    if rest == [] then [] else [rest[..ChunkSize(|rest|)]] + LaterSlices(rest[ChunkSize(|rest|)..])
  }

  function PlaybackSlices(sentences: seq<string>): seq<seq<string>> {
    if sentences == [] then []
    else if |sentences| <= 2 then [sentences]
    else [sentences[..2]] + LaterSlices(sentences[2..])
  }

  method PackPlaybackChunks(ws: Spaces, text: string) returns (chunks: seq<string>)
    requires SENTENCE_ENDS !! ws
    ensures chunks == JoinEach(PlaybackSlices(SplitSentences(ws, text)))
  {
    var sentences := SplitSentences(ws, text);
    hide SplitSentences, Join, Strip;
    if sentences == [] {
      return [];
    }
    var first := if |sentences| < 2 then |sentences| else 2;
    chunks := [Join(" ", sentences[..first])];
    var rest := sentences[first..];
    PlaybackFirst(sentences);
    var i := 0;
    while i < |rest|
      invariant i <= |rest|
      invariant chunks + JoinEach(LaterSlices(rest[i..])) == JoinEach(PlaybackSlices(sentences))
    {
      var left := |rest| - i;
      var take;
      if left <= 4 {
        take := left;
      } else if left == 5 {
        take := 2;
      } else {
        take := 3;
      }
      LaterStep(rest, i, take);
      AppendAssoc(chunks, [Join(" ", rest[i..i + take])], JoinEach(LaterSlices(rest[i + take..])));
      chunks := chunks + [Join(" ", rest[i..i + take])];
      i := i + take;
    }
    assert rest[i..] == [] && chunks + [] == chunks;
    SplitGivesSentences(ws, text);
    PlaybackNonBlank(ws, sentences);
    chunks := NonBlank(ws, chunks);
  }

  lemma {:induction false} PlaybackFirst(sentences: seq<string>)
    requires sentences != []
    ensures var first := if |sentences| < 2 then |sentences| else 2;
            JoinEach(PlaybackSlices(sentences)) ==
            [Join(" ", sentences[..first])] + JoinEach(LaterSlices(sentences[first..]))
  {
    if |sentences| <= 2 {
      assert sentences[..|sentences|] == sentences && sentences[|sentences|..] == [];
      assert [sentences][1..] == [];
    } else {
      var later := LaterSlices(sentences[2..]);
      assert ([sentences[..2]] + later)[1..] == later;
    }
  }

  lemma {:induction false} LaterStep(rest: seq<string>, i: nat, take: nat)
    requires i < |rest| && take == ChunkSize(|rest| - i)
    ensures JoinEach(LaterSlices(rest[i..])) == [Join(" ", rest[i..i + take])] + JoinEach(LaterSlices(rest[i + take..]))
  {
    hide Join;
    var now := rest[i..];
    assert now[..take] == rest[i..i + take] && now[take..] == rest[i + take..];
    var later := LaterSlices(rest[i + take..]);
    assert ([now[..take]] + later)[1..] == later;
  }

  /** Every slice holds whole sentences, so no chunk is blank. */
  ghost predicate SentenceLists(ws: Spaces, slices: seq<seq<string>>) {
    forall k | 0 <= k < |slices| :: slices[k] != [] && SentenceList(ws, slices[k])
  }

  lemma {:induction false} LaterAreSentences(ws: Spaces, rest: seq<string>)
    requires SentenceList(ws, rest)
    ensures SentenceLists(ws, LaterSlices(rest)) && Flatten(LaterSlices(rest)) == rest
    decreases |rest|
  {
    hide SentenceList, ChunkSize;
    if rest != [] {
      var take := ChunkSize(|rest|);
      var now, later := rest[..take], LaterSlices(rest[take..]);
      SentenceSlice(ws, rest, 0, take);
      SentenceSlice(ws, rest, take, |rest|);
      assert rest[0..take] == now && rest[take..|rest|] == rest[take..];
      LaterAreSentences(ws, rest[take..]);
      assert ([now] + later)[1..] == later;
      assert Flatten([now] + later) == now + Flatten(later);
    }
  }

  lemma {:induction false} SlicesAreSentences(ws: Spaces, sentences: seq<string>)
    requires SentenceList(ws, sentences)
    ensures SentenceLists(ws, PlaybackSlices(sentences)) && Flatten(PlaybackSlices(sentences)) == sentences
  {
    hide SentenceList;
    if |sentences| <= 2 {
      assert sentences != [] ==> [sentences][1..] == [];
    } else {
      SentenceSlice(ws, sentences, 0, 2);
      SentenceSlice(ws, sentences, 2, |sentences|);
      assert sentences[0..2] == sentences[..2] && sentences[2..|sentences|] == sentences[2..];
      LaterAreSentences(ws, sentences[2..]);
      var later := LaterSlices(sentences[2..]);
      assert ([sentences[..2]] + later)[1..] == later;
    }
  }

  lemma {:induction false} NonBlankAll(ws: Spaces, slices: seq<seq<string>>)
    requires SentenceLists(ws, slices)
    ensures NonBlank(ws, JoinEach(slices)) == JoinEach(slices)
  {
    hide SentenceList, Strip, Join;
    if slices != [] {
      JoinStartsVisible(ws, slices[0]);
      var chunk := Join(" ", slices[0]);
      StripBlank(ws, chunk);
      assert chunk[0] in chunk;
      NonBlankAll(ws, slices[1..]);
    }
  }

  lemma {:induction false} PlaybackNonBlank(ws: Spaces, sentences: seq<string>)
    requires SentenceList(ws, sentences)
    ensures NonBlank(ws, JoinEach(PlaybackSlices(sentences))) == JoinEach(PlaybackSlices(sentences))
  {
    SlicesAreSentences(ws, sentences);
    NonBlankAll(ws, PlaybackSlices(sentences));
  }

  /** How large the slices are: two first, or the only sentence; then three each, but a remainder of one makes
      the last one four, and a remainder of two makes the one before it, or the only one, two. */
  predicate GoodSizes(n: nat, slices: seq<seq<string>>) {
    && (n == 0 ==> slices == [])
    && (n > 0 ==> slices != [] && |slices[0]| == (if n < 2 then n else 2) && GoodRest(n - |slices[0]|, slices[1..]))
  }

  predicate GoodRest(left: nat, slices: seq<seq<string>>) {
    forall k | 0 <= k < |slices| :: |slices[k]| == RestSize(left, |slices| - 1 - k)
  }

  /** The size of the slice that has `after` others after it. */
  function RestSize(left: nat, after: nat): nat {
    if left <= 4 then left
    else if left % 3 == 1 && after == 0 then 4
    else if left % 3 == 2 && after == 1 then 2
    else 3
  }

  lemma {:induction false} LaterSizes(rest: seq<string>)
    ensures GoodRest(|rest|, LaterSlices(rest)) && (LaterSlices(rest) == [] <==> rest == [])
    ensures 0 < |rest| <= 4 ==> |LaterSlices(rest)| == 1
    ensures |rest| > 4 ==> |LaterSlices(rest)| > 1 && (|rest| == 5 ==> |LaterSlices(rest)| == 2)
    ensures |rest| > 5 && |rest| % 3 == 2 ==> |LaterSlices(rest)| > 2
    decreases |rest|
  {
    if rest != [] {
      var now, later := rest[..ChunkSize(|rest|)], LaterSlices(rest[ChunkSize(|rest|)..]);
      LaterSizes(rest[ChunkSize(|rest|)..]);
      assert forall k | 0 < k <= |later| :: ([now] + later)[k] == later[k - 1];
    }
  }

  lemma {:induction false} PlaybackSizes(sentences: seq<string>)
    ensures GoodSizes(|sentences|, PlaybackSlices(sentences))
  {
    if |sentences| > 2 {
      var rest := sentences[2..];
      LaterSizes(rest);
      assert ([sentences[..2]] + LaterSlices(rest))[1..] == LaterSlices(rest);
    }
  }

  /** The playback chunks of a text: splitting each one again gives exactly the sentences packed into
      it, these slices concatenate to the text's sentences, and their sizes are as stated. */
  lemma {:induction false} PlaybackFacts(ws: Spaces, text: string)
    requires SENTENCE_ENDS !! ws && ' ' in ws
    ensures var sentences := SplitSentences(ws, text);
            var slices := PlaybackSlices(sentences);
            && |JoinEach(slices)| == |slices|
            && (forall k | 0 <= k < |slices| :: SplitSentences(ws, JoinEach(slices)[k]) == slices[k])
            && Flatten(slices) == sentences
            && GoodSizes(|sentences|, slices)
  {
    hide SplitSentences, PlaybackSlices, SentenceList;
    var sentences := SplitSentences(ws, text);
    var slices := PlaybackSlices(sentences);
    SplitGivesSentences(ws, text);
    SlicesAreSentences(ws, sentences);
    PlaybackSizes(sentences);
    JoinEachAt(slices);
    forall k | 0 <= k < |slices| ensures SplitSentences(ws, JoinEach(slices)[k]) == slices[k] {
      SplitUndoesJoin(ws, slices[k]);
    }
  }

  lemma {:induction false} JoinEachAt(parts: seq<seq<string>>)
    ensures |JoinEach(parts)| == |parts|
    ensures forall k | 0 <= k < |parts| :: JoinEach(parts)[k] == Join(" ", parts[k])
  {
    hide Join;
    if parts != [] {
      JoinEachAt(parts[1..]);
    }
  }
}
